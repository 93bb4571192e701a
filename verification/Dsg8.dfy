/** Disaggregation 8: validating candidate paths for one RU, and allocating the accepted one. */
module Dsg8 {
  import opened Graphs
  import opened Chains
  import opened Cluster
  import opened Options

  const DSG8_KEY := "1"

  datatype Position = Position(cuNodeName: Name, duNodeName: Name, path: Path, disaggregationKey: string)

  /** `OutOfRange` is the panic raised for a path without a second node. */
  datatype Verdict = OutOfRange | Rejected | Accepted(position: Position)

  /** `NilNode` is the panic raised when the DU's name is not a node's. */
  datatype Allocation = Allocated | Refused | NilNode

  /** The name recorded for a DU at index `j`; none if the search ran to the end of the path. */
  ghost function DuName(path: Path, j: nat): Name {
    if j + 1 < |path| then path[j] else NO_NAME
  }

  /** `j` is where a path's DU was found, or the last index. */
  ghost predicate DuAt(path: Path, j: nat) {
    |path| >= 2 && (j == |path| - 1 || 2 <= j < |path| - 1)
  }

  /** What is left in the requirement queue before the i-th node of a path is looked at. */
  ghost function StillQueued(reqs: Requirements, path: Path, j: nat, i: nat): seq<Requirement> {
    if i == 0 then [reqs.backhaul, reqs.midhaul, reqs.fronthaul]
    else if i == 1 then [reqs.midhaul, reqs.fronthaul]
    else if i <= j || j + 1 >= |path| then [reqs.fronthaul]
    else []
  }

  /** The requirement queue, the current requirement and the running latency before the i-th node. */
  ghost predicate Serving(net: Net, reqs: Requirements, path: Path, j: nat, i: nat,
                          queue: seq<Requirement>, requirement: Option<Requirement>, total: real)
  {
    match requirement
    case None => i == 0 && queue == StillQueued(reqs, path, j, i)
    case Some(r) =>
      && queue == StillQueued(reqs, path, j, i)
      && (0 < i < |path| ==> r == SegmentOf(reqs, i - 1, j) && total == Latency(net, path, SegmentStart(i - 1, j), i))
  }

  /** Exactly the root, the CU and a named DU are placement nodes of a simple path. */
  lemma Marked(path: Path, j: nat, i: nat)
    requires Distinct(path) && DuAt(path, j) && i < |path| && path[i] != NO_NAME
    ensures path[i] in {path[0], path[1], DuName(path, j)} <==> i <= 1 || (i == j && j + 1 < |path|)
  {
  }

  /** The queue is non-empty whenever it is read, and each hop is judged against its own segment. */
  lemma ServeOrKeep(net: Net, reqs: Requirements, path: Path, j: nat, i: nat,
                    queue: seq<Requirement>, requirement: Option<Requirement>, total: real)
    requires DuAt(path, j) && i < |path| && Serving(net, reqs, path, j, i, queue, requirement, total)
    ensures (i <= 1 || (i == j && j + 1 < |path|)) ==>
              queue != [] && (i + 1 < |path| ==> queue[0] == SegmentOf(reqs, i, j) && SegmentStart(i, j) == i) &&
              queue[1..] == StillQueued(reqs, path, j, i + 1)
    ensures !(i <= 1 || (i == j && j + 1 < |path|)) ==>
              queue == StillQueued(reqs, path, j, i + 1) && requirement.Some? &&
              (i + 1 < |path| ==> requirement == Some(SegmentOf(reqs, i, j)) &&
                                  total == Latency(net, path, SegmentStart(i, j), i))
  {
  }

  lemma {:induction false} FirstFitProperty(s: Stock, request: Request, path: Path, k: nat)
    requires 2 <= k < |path| - 1 || k == 2 <= |path|
    ensures var j := FirstFit(s, request, path, k);
            && DuAt(path, j)
            && (j < |path| - 1 ==> k <= j && HasRoom(s, request, path[j]))
            && (forall m :: k <= m < j ==> !HasRoom(s, request, path[m]))
    decreases |path| - k
  {
    if k + 1 < |path| - 1 && !HasRoom(s, request, path[k]) {
      FirstFitProperty(s, request, path, k + 1);
    }
  }

  lemma FirstFitIsDu(s: Stock, request: Request, path: Path)
    requires |path| >= 2
    ensures DuAt(path, DuIndex(s, request, path))
    ensures DuFound(s, request, path) ==> HasRoom(s, request, path[DuIndex(s, request, path)])
  {
    FirstFitProperty(s, request, path, 2);
  }

  /** Is there room for a DU strictly between the CU and the RU? */
  ghost predicate DuFound(s: Stock, request: Request, path: Path) {
    DuIndex(s, request, path) + 1 < |path|
  }

  /** The guard that decides whether an accepted chain has a DU at all. */
  lemma DuFoundIff(s: Stock, request: Request, path: Path)
    requires |path| >= 2
    ensures DuFound(s, request, path) <==> exists m :: 2 <= m < |path| - 1 && HasRoom(s, request, path[m])
  {
    FirstFitProperty(s, request, path, 2);
  }

  /**
    Which paths pass: those whose second node has room for the CU and whose three segments, parted at the CU
    and at the DU if there is one, have bandwidth enough and latencies that add up to no more than allowed.
   */
  lemma FeasibleIff(net: Net, s: Stock, request: Request, reqs: Requirements, path: Path)
    requires NonNegative(net) && |path| >= 2
    ensures DuAt(path, DuIndex(s, request, path))
    ensures Feasible(net, s, request, reqs, path) <==>
              HasRoom(s, request, path[1]) && SegmentsOk(net, s.bw, reqs, path, DuIndex(s, request, path))
  {
    FirstFitIsDu(s, request, path);
    SweepDecidesSegments(net, s.bw, reqs, path, DuIndex(s, request, path));
  }

  /** The candidate that validation records for a path. */
  ghost function CandidateOf(s: Stock, request: Request, path: Path): Position {
    if |path| < 2 then Position(NO_NAME, NO_NAME, path, DSG8_KEY)
    else Position(path[1], DuName(path, DuIndex(s, request, path)), path, DSG8_KEY)
  }

  /**
    The verdict on some paths: the panic exactly if one is too short, else the candidate of one that is
    feasible, if there is any.
   */
  ghost predicate Decides(net: Net, s: Stock, request: Request, reqs: Requirements, paths: seq<Path>,
                          verdict: Verdict)
  {
    && (verdict.OutOfRange? <==> exists i :: 0 <= i < |paths| && |paths[i]| < 2)
    && match verdict
       case OutOfRange => true
       case Rejected => forall i: nat :: i < |paths| ==> !Feasible(net, s, request, reqs, paths[i])
       case Accepted(position) =>
         && position.path in paths && Feasible(net, s, request, reqs, position.path)
         && position == CandidateOf(s, request, position.path)
  }

  /** An accepted chain is paid for in full if it has a DU, and not at all if it has none; never in part. */
  ghost predicate PaidFor(net: Net, s: Stock, request: Request, reqs: Requirements, path: Path, result: Allocation,
                          left: Stock)
  {
    match result
    case Allocated =>
      && 1 < |path| && DuFound(s, request, path)
      && left == AllocateChain(net, s, request, reqs, path, DuIndex(s, request, path))
    case NilNode => !DuFound(s, request, path) && left == s
    case Refused => false
  }

  ghost predicate AllSimple(net: Net, paths: seq<Path>) {
    forall p {:trigger SimplePath(net, p)} :: p in paths ==> SimplePath(net, p)
  }

  /** The first `k` paths have a second node. */
  ghost predicate NoneShort(paths: seq<Path>, k: nat)
    requires k <= |paths|
  {
    forall i :: 0 <= i < k ==> |paths[i]| >= 2
  }

  class Disaggregation8 {
    const nodes: map<Name, Node>
    const requestedResources: Request
    const networkRequirements: Requirements
    /** Every link object, by name, and the network that nodes and links form. */
    ghost const links: map<Name, Link>
    ghost const net: Net

    constructor (nodes: map<Name, Node>, requestedResources: Request, networkRequirements: Requirements,
                 ghost links: map<Name, Link>, ghost net: Net)
      ensures this.nodes == nodes && this.links == links && this.net == net
      ensures this.requestedResources == requestedResources && this.networkRequirements == networkRequirements
    {
      this.nodes, this.links, this.net := nodes, links, net;
      this.requestedResources, this.networkRequirements := requestedResources, networkRequirements;
    }

    /** The objects are consistent and hold this stock. */
    ghost predicate Holding(stock: Stock)
      reads nodes.Values, ResourcesOf(nodes), links.Values
    {
      Holds(nodes, links, net, stock)
    }

    /** The same, leaving the links' bandwidths open. */
    ghost predicate NodesHolding(stock: Stock)
      reads nodes.Values, ResourcesOf(nodes)
    {
      NodesHold(nodes, links, net, stock)
    }

    /** Every link has lost what the first `k` hops of the path take from it, starting from `bw`. */
    ghost predicate Paid(bw: map<Name, real>, path: Path, j: nat, k: nat)
      reads links.Values
    {
      LinksHold(links, DebitedUpTo(net, bw, networkRequirements, path, j, k))
    }

    lemma PaidInFull(stock: Stock, path: Path, j: nat)
      requires NodesHolding(stock) && path != [] && Paid(stock.bw, path, j, |path| - 1)
      ensures Holding(stock.(bw := Debited(net, stock.bw, networkRequirements, path, j)))
    {
      var after := stock.(bw := Debited(net, stock.bw, networkRequirements, path, j));
      forall n | n in nodes ensures NodeHolds(nodes, after, n) {
        assert NodeHolds(nodes, stock, n);
      }
    }

    /** Where a sweep stands after `k` hops that went well, starting from bandwidths `bw`. */
    ghost predicate Progress(allocateResources: bool, bw: map<Name, real>, path: Path, j: nat, k: nat)
      reads links.Values
    {
      match allocateResources
      case true => Paid(bw, path, j, k) && Payable(net, bw, networkRequirements, path, j, k)
      case false => LinksHold(links, bw) && SweptOk(net, bw, networkRequirements, path, j, k)
    }

    /** A sweep that ends early: checking, nothing has changed; allocating, debit `k` is the first to overdraw. */
    ghost predicate Broken(allocateResources: bool, bw: map<Name, real>, path: Path, j: nat, k: nat)
      reads links.Values
    {
      match allocateResources
      case true =>
        && k > 0 && Paid(bw, path, j, k)
        && Payable(net, bw, networkRequirements, path, j, k - 1)
        && !PayableAt(net, bw, networkRequirements, path, j, k - 1)
      case false => LinksHold(links, bw) && !SweepOk(net, bw, networkRequirements, path, j)
    }

    /** Debits the hop after the i-th node. */
    method DebitLink(path: Path, i: nat, required: real, ghost j: nat, ghost stock: Stock) returns (ok: bool)
      requires NodesHolding(stock) && SimplePath(net, path) && i + 1 < |path|
      requires required == SegmentOf(networkRequirements, i, j).bandwidth
      requires Paid(stock.bw, path, j, i)
      modifies links.Values
      ensures NodesHolding(stock) && Paid(stock.bw, path, j, i + 1)
      ensures ok <==> PayableAt(net, stock.bw, networkRequirements, path, j, i)
    {
      HopLink(nodes, links, net, path, i);
      var link := nodes[path[i]].links[path[i+1]];
      assert LinkFits(links, net, LinkAt(net, path, i));
      DebitedStep(net, stock.bw, networkRequirements, path, j, i);
      var refused := Cluster.DebitLink(link, required, links, net,
                                       DebitedUpTo(net, stock.bw, networkRequirements, path, j, i));
      ok := !refused;
    }

    /** The hop after the i-th node: checked against its requirement, or debited. */
    method SweepLink(path: Path, i: nat, requirement: Requirement, latencySoFar: real, allocateResources: bool,
                     ghost j: nat, ghost stock: Stock) returns (ok: bool, totalLatency: real)
      requires NodesHolding(stock) && SimplePath(net, path) && i + 1 < |path|
      requires requirement == SegmentOf(networkRequirements, i, j)
      requires latencySoFar == Latency(net, path, SegmentStart(i, j), i) && SegmentStart(i, j) <= i
      requires Progress(allocateResources, stock.bw, path, j, i)
      modifies if allocateResources then links.Values else {}
      ensures NodesHolding(stock)
      ensures totalLatency == Latency(net, path, SegmentStart(i, j), i + 1)
      ensures ok ==> Progress(allocateResources, stock.bw, path, j, i + 1)
      ensures !ok ==> Broken(allocateResources, stock.bw, path, j, i + 1)
    {
      HopLink(nodes, links, net, path, i);
      SweepAndPayStep(net, stock.bw, networkRequirements, path, j, i);
      var link := nodes[path[i]].links[path[i+1]];
      totalLatency := latencySoFar + link.latency;
      if allocateResources {
        ok := DebitLink(path, i, requirement.bandwidth, j, stock);
      } else {
        assert LinkHolds(links, stock.bw, LinkAt(net, path, i));
        ok := link.HasBandwidth(requirement.bandwidth) &&
              !(requirement.latency > 0.0 && totalLatency > requirement.latency);
        assert ok <==> LinkOk(net, stock.bw, networkRequirements, path, j, i);
      }
    }

    /** At a placement node the next requirement is taken from the queue and the running latency restarts. */
    method Serve(path: Path, i: nat, placementNodes: set<Name>, queue: seq<Requirement>,
                 requirement: Option<Requirement>, total: real, ghost j: nat)
      returns (rest: seq<Requirement>, current: Requirement, latency: real)
      requires Distinct(path) && NO_NAME !in path && DuAt(path, j) && i < |path|
      requires placementNodes == {path[0], path[1], DuName(path, j)}
      requires Serving(net, networkRequirements, path, j, i, queue, requirement, total)
      ensures rest == StillQueued(networkRequirements, path, j, i + 1)
      ensures i + 1 < |path| ==>
                current == SegmentOf(networkRequirements, i, j) && latency == Latency(net, path, SegmentStart(i, j), i)
    {
      Marked(path, j, i);
      ServeOrKeep(net, networkRequirements, path, j, i, queue, requirement, total);
      if path[i] in placementNodes {
        return queue[1..], queue[0], 0.0;
      }
      return queue, requirement.value, total;
    }

    /** Before the i-th node is looked at: what the objects, the queue and the running latency are. */
    ghost predicate Midway(allocateResources: bool, stock: Stock, path: Path, j: nat, i: nat, debited: nat,
                           queue: seq<Requirement>, requirement: Option<Requirement>, total: real)
      reads nodes.Values, ResourcesOf(nodes), links.Values
    {
      match requirement
      case None => i == 0 && SoFar(allocateResources, stock, path, j, i, debited, queue, requirement, total)
      case Some(_) => i > 0 && SoFar(allocateResources, stock, path, j, i, debited, queue, requirement, total)
    }

    ghost predicate SoFar(allocateResources: bool, stock: Stock, path: Path, j: nat, i: nat, debited: nat,
                          queue: seq<Requirement>, requirement: Option<Requirement>, total: real)
      reads nodes.Values, ResourcesOf(nodes), links.Values
    {
      && NodesHolding(stock)
      && Serving(net, networkRequirements, path, j, i, queue, requirement, total)
      && debited == (if i < |path| || i == 0 then i else i - 1)
      && Progress(allocateResources, stock.bw, path, j, debited)
    }

    lemma NothingSwept(allocateResources: bool, stock: Stock, path: Path, j: nat, queue: seq<Requirement>)
      requires Holding(stock) && path != [] && queue == StillQueued(networkRequirements, path, j, 0)
      ensures Midway(allocateResources, stock, path, j, 0, 0, queue, None, 0.0)
    {
      assert DebitedUpTo(net, stock.bw, networkRequirements, path, j, 0) == stock.bw;
    }

    lemma Opened(allocateResources: bool, stock: Stock, path: Path, j: nat, i: nat, debited: nat,
                 queue: seq<Requirement>, requirement: Option<Requirement>, total: real)
      requires i < |path| && Midway(allocateResources, stock, path, j, i, debited, queue, requirement, total)
      ensures NodesHolding(stock) && Progress(allocateResources, stock.bw, path, j, i)
      ensures Serving(net, networkRequirements, path, j, i, queue, requirement, total)
    {
    }

    lemma Onward(allocateResources: bool, stock: Stock, path: Path, j: nat, i: nat, debited: nat,
                 queue: seq<Requirement>, r: Requirement, total: real)
      requires i < |path| && debited == (if i + 1 < |path| then i + 1 else i)
      requires NodesHolding(stock) && Progress(allocateResources, stock.bw, path, j, debited)
      requires queue == StillQueued(networkRequirements, path, j, i + 1)
      requires i + 1 < |path| ==> r == SegmentOf(networkRequirements, i, j)
      requires i + 1 < |path| ==> total == Latency(net, path, SegmentStart(i, j), i + 1)
      ensures Midway(allocateResources, stock, path, j, i + 1, debited, queue, Some(r), total)
    {
    }

    lemma AllSwept(allocateResources: bool, stock: Stock, path: Path, j: nat, debited: nat,
                   queue: seq<Requirement>, requirement: Option<Requirement>, total: real)
      requires path != []
      requires Midway(allocateResources, stock, path, j, |path|, debited, queue, requirement, total)
      ensures NodesHolding(stock)
      ensures Progress(allocateResources, stock.bw, path, j, debited) && debited == |path| - 1
    {
    }

    /** The hop after the i-th node, if there is one, with the requirement in force there. */
    method SweepHop(path: Path, i: nat, r: Requirement, latencySoFar: real, allocateResources: bool,
                    ghost rest: seq<Requirement>, ghost j: nat, ghost stock: Stock)
      returns (ok: bool, latency: real, ghost debited: nat)
      requires NodesHolding(stock) && SimplePath(net, path) && i < |path|
      requires Progress(allocateResources, stock.bw, path, j, i)
      requires rest == StillQueued(networkRequirements, path, j, i + 1) && SegmentStart(i, j) <= i
      requires i + 1 < |path| ==> r == SegmentOf(networkRequirements, i, j)
      requires i + 1 < |path| ==> latencySoFar == Latency(net, path, SegmentStart(i, j), i)
      modifies if allocateResources then links.Values else {}
      ensures ok ==> Midway(allocateResources, stock, path, j, i + 1, debited, rest, Some(r), latency)
      ensures !ok ==> NodesHolding(stock) && Broken(allocateResources, stock.bw, path, j, debited)
      ensures debited < |path|
    {
      ok, latency, debited := true, latencySoFar, i;
      if i + 1 < |path| {
        debited := i + 1;
        ok, latency := SweepLink(path, i, r, latency, allocateResources, j, stock);
      }
      if ok {
        Onward(allocateResources, stock, path, j, i, debited, rest, r, latency);
      }
    }

    /** One turn of the sweep: the i-th node, and the hop after it. */
    method SweepNode(path: Path, i: nat, placementNodes: set<Name>, queue: seq<Requirement>,
                     requirement: Option<Requirement>, total: real, allocateResources: bool,
                     ghost j: nat, ghost stock: Stock, ghost before: nat)
      returns (ok: bool, rest: seq<Requirement>, current: Option<Requirement>, latency: real, ghost debited: nat)
      requires SimplePath(net, path) && DuAt(path, j) && i < |path|
      requires NO_NAME !in path && placementNodes == {path[0], path[1], DuName(path, j)}
      requires Midway(allocateResources, stock, path, j, i, before, queue, requirement, total)
      modifies if allocateResources then links.Values else {}
      ensures ok ==> Midway(allocateResources, stock, path, j, i + 1, debited, rest, current, latency)
      ensures !ok ==> NodesHolding(stock) && Broken(allocateResources, stock.bw, path, j, debited)
      ensures debited < |path|
    {
      Opened(allocateResources, stock, path, j, i, before, queue, requirement, total);
      var r;
      rest, r, latency := Serve(path, i, placementNodes, queue, requirement, total, j);
      current := Some(r);
      ok, latency, debited := SweepHop(path, i, r, latency, allocateResources, rest, j, stock);
    }

    /**
      One sweep along the path, judging each link against its segment's requirement.  `debited` counts
      the links debited when allocating.
     */
    method ValidateNetwork(path: Path, cuNode: Name, duNode: Name, allocateResources: bool, ghost j: nat,
                           ghost stock: Stock)
      returns (ok: bool, failed: bool, ghost debited: nat)
      requires Holding(stock) && SimplePath(net, path)
      requires DuAt(path, j) && cuNode == path[1] && duNode == DuName(path, j)
      modifies if allocateResources then links.Values else {}
      ensures NodesHolding(stock)
      ensures failed <==> allocateResources && !ok
      ensures ok ==> Progress(allocateResources, stock.bw, path, j, debited) && debited == |path| - 1
      ensures !ok ==> Broken(allocateResources, stock.bw, path, j, debited) && debited < |path|
    {
      OnNodes(nodes, links, net, path);
      var disaggregationQueue :=
        [networkRequirements.backhaul, networkRequirements.midhaul, networkRequirements.fronthaul];
      var placementNodes := {path[0], cuNode, duNode};
      var totalLatency := 0.0;
      var requirement: Option<Requirement> := None;
      debited := 0;
      NothingSwept(allocateResources, stock, path, j, disaggregationQueue);
      for i := 0 to |path|
        invariant Midway(allocateResources, stock, path, j, i, debited, disaggregationQueue, requirement, totalLatency)
      {
        var fine;
        fine, disaggregationQueue, requirement, totalLatency, debited := SweepNode(path, i, placementNodes,
          disaggregationQueue, requirement, totalLatency, allocateResources, j, stock, debited);
        if !fine {
          return false, allocateResources, debited;
        }
      }
      AllSwept(allocateResources, stock, path, j, debited, disaggregationQueue, requirement, totalLatency);
      return true, false, debited;
    }

    /** A node's own test says whether there is room on it. */
    lemma RoomAt(path: Path, i: nat, stock: Stock)
      requires Holding(stock) && SimplePath(net, path) && i < |path|
      ensures path[i] in nodes
      ensures nodes[path[i]].HasResources(requestedResources) <==> HasRoom(stock, requestedResources, path[i])
    {
      NodeAt(nodes, links, net, path, i);
      assert NodeHolds(nodes, stock, path[i]);
    }

    /** The DU is looked for among the nodes between the CU and the RU; the first with room is taken. */
    method FindDu(path: Path, ghost stock: Stock) returns (duNodeName: Name)
      requires Holding(stock) && SimplePath(net, path) && |path| >= 2
      ensures Holding(stock)
      ensures duNodeName == DuName(path, DuIndex(stock, requestedResources, path))
    {
      duNodeName := NO_NAME;
      var j := 2;
      while j < |path| - 1
        invariant Holding(stock)
        invariant 2 <= j && (j < |path| || |path| == 2) && duNodeName == NO_NAME
        invariant FirstFit(stock, requestedResources, path, j) == DuIndex(stock, requestedResources, path)
      {
        RoomAt(path, j, stock);
        if nodes[path[j]].HasResources(requestedResources) {
          duNodeName := path[j];
          break;
        }
        j := j + 1;
      }
    }

    ghost function Candidate(path: Path, stock: Stock): Position
      requires |path| >= 2
    {
      CandidateOf(stock, requestedResources, path)
    }

    ghost predicate Accepts(stock: Stock, path: Path) {
      Feasible(net, stock, requestedResources, networkRequirements, path)
    }

    ghost predicate RoomForCu(stock: Stock, path: Path) {
      |path| >= 2 && HasRoom(stock, requestedResources, path[1])
    }

    /** A candidate, if the path's second node has room for the CU. */
    ghost function Offer(stock: Stock, path: Path): Option<Position>
      requires |path| >= 2
    {
      if RoomForCu(stock, path) then Some(Candidate(path, stock)) else None
    }

    method CandidateOn(path: Path, ghost stock: Stock) returns (candidate: Option<Position>)
      requires Holding(stock) && SimplePath(net, path) && |path| >= 2
      ensures Holding(stock)
      ensures candidate == Offer(stock, path)
    {
      RoomAt(path, 1, stock);
      if !nodes[path[1]].HasResources(requestedResources) {
        return None;
      }
      var duNodeName := FindDu(path, stock);
      return Some(Position(path[1], duNodeName, path, DSG8_KEY));
    }

    /** What the first `k` paths offer, by the index of the path. */
    ghost function Positions(stock: Stock, paths: seq<Path>, k: nat): map<nat, Position>
      requires k <= |paths|
    {
      map i: nat | i < k && RoomForCu(stock, paths[i]) :: Candidate(paths[i], stock)
    }

    lemma PositionsStep(stock: Stock, paths: seq<Path>, k: nat)
      requires k < |paths| && |paths[k]| >= 2
      ensures Positions(stock, paths, k + 1) ==
              match Offer(stock, paths[k]) {
                case None => Positions(stock, paths, k)
                case Some(position) => Positions(stock, paths, k)[k := position]
              }
      ensures NoneShort(paths, k) ==> NoneShort(paths, k + 1)
    {
    }

    /** Candidates, by the index of their path; `None` is the panic on a path without a second node. */
    method Candidates(paths: seq<Path>, ghost stock: Stock) returns (positions: Option<map<nat, Position>>)
      requires Holding(stock) && AllSimple(net, paths)
      ensures Holding(stock)
      ensures positions.None? <==> exists i :: 0 <= i < |paths| && |paths[i]| < 2
      ensures positions.Some? ==> positions.value == Positions(stock, paths, |paths|)
    {
      var found: map<nat, Position> := map[];
      for i := 0 to |paths|
        invariant Holding(stock)
        invariant NoneShort(paths, i) && found == Positions(stock, paths, i)
      {
        if |paths[i]| < 2 {
          return None;
        }
        var candidate := CandidateOn(paths[i], stock);
        PositionsStep(stock, paths, i);
        if candidate.Some? {
          found := found[i := candidate.value];
        }
      }
      return Some(found);
    }

    /** The network check of a path's own candidate. */
    method Passes(path: Path, candidate: Position, ghost stock: Stock) returns (ok: bool)
      requires Holding(stock) && SimplePath(net, path) && |path| >= 2
      requires RoomForCu(stock, path) && candidate == Candidate(path, stock)
      ensures Holding(stock)
      ensures ok <==> Accepts(stock, path)
    {
      FirstFitIsDu(stock, requestedResources, path);
      var isValid, _, _ := ValidateNetwork(path, candidate.cuNodeName, candidate.duNodeName, false,
                                           DuIndex(stock, requestedResources, path), stock);
      return isValid;
    }

    /** Tries the candidates, in any order, until one passes. */
    method FirstPassing(paths: seq<Path>, positions: map<nat, Position>, ghost stock: Stock)
      returns (found: Option<nat>)
      requires Holding(stock) && AllSimple(net, paths)
      requires positions == Positions(stock, paths, |paths|)
      ensures Holding(stock)
      ensures found.Some? ==> found.value in positions && Accepts(stock, paths[found.value])
      ensures found.None? ==> forall i: nat :: i < |paths| ==> !Accepts(stock, paths[i])
    {
      var todo := positions.Keys;
      while todo != {}
        invariant Holding(stock)
        invariant todo <= positions.Keys
        invariant forall i: nat :: i in positions && i !in todo ==> !Accepts(stock, paths[i])
        decreases todo
      {
        var p :| p in todo;
        var isValid := Passes(paths[p], positions[p], stock);
        if isValid {
          return Some(p);
        }
        todo := todo - {p};
      }
      forall i: nat | i < |paths| ensures !Accepts(stock, paths[i]) {
        assert i in positions || !RoomForCu(stock, paths[i]);
      }
      return None;
    }

    /**
      The verdict does not depend on the order in which candidates are tried: it is `Accepted`, with a
      feasible path's own candidate, exactly when some path is feasible.
     */
    method Validate(paths: seq<Path>, ghost stock: Stock) returns (verdict: Verdict)
      requires Holding(stock) && AllSimple(net, paths)
      ensures Holding(stock)
      ensures Decides(net, stock, requestedResources, networkRequirements, paths, verdict)
    {
      var positions := Candidates(paths, stock);
      if positions.None? {
        return OutOfRange;
      }
      var found := FirstPassing(paths, positions.value, stock);
      if found.Some? {
        return Accepted(positions.value[found.value]);
      }
      return Rejected;
    }

    /** Debits every link of the path; all of them succeed when the check passed on this stock. */
    method DebitLinks(path: Path, cuNode: Name, duNode: Name, ghost j: nat, ghost stock: Stock)
      returns (refused: bool)
      requires Holding(stock) && SimplePath(net, path)
      requires DuAt(path, j) && cuNode == path[1] && duNode == DuName(path, j)
      requires SweepOk(net, stock.bw, networkRequirements, path, j)
      modifies links.Values
      ensures Holding(stock.(bw := Debited(net, stock.bw, networkRequirements, path, j))) && !refused
    {
      CheckedIsPayable(net, stock.bw, networkRequirements, path, j);
      var ok, failed, debited := ValidateNetwork(path, cuNode, duNode, true, j, stock);
      refused := failed || !ok;
      PaidInFull(stock, path, j);
    }

    ghost function AfterNodes(stock: Stock, path: Path, j: nat): Stock
      requires 1 < |path| && j < |path|
    {
      Charged(Charged(stock, path[j], requestedResources), path[1], requestedResources)
    }

    /** An accepted chain with a DU can pay for the DU, then for the CU, then for its links. */
    lemma ChainPays(stock: Stock, path: Path, j: nat)
      requires SimplePath(net, path) && Accepts(stock, path)
      requires j == DuIndex(stock, requestedResources, path) && j + 1 < |path|
      ensures 2 <= j && !Short(stock, requestedResources, path[j]) &&
              !Short(Charged(stock, path[j], requestedResources), requestedResources, path[1])
      ensures SweepOk(net, AfterNodes(stock, path, j).bw, networkRequirements, path, j)
    {
      FirstFitIsDu(stock, requestedResources, path);
      RoomLeaves(stock.mem[path[j]], stock.cpu[path[j]], requestedResources);
      RoomLeaves(stock.mem[path[1]], stock.cpu[path[1]], requestedResources);
    }

    /**
      Debits the DU's node, the CU's node and then every link of the recorded path.  For a chain that
      was accepted on the current stock nothing is refused, and all the debits are made.
     */
    method AllocateResources(path: Path, cuNode: Name, duNode: Name, ghost stock: Stock)
      returns (result: Allocation, ghost left: Stock)
      requires Holding(stock) && SimplePath(net, path) && Accepts(stock, path)
      requires Position(cuNode, duNode, path, DSG8_KEY) == Candidate(path, stock)
      modifies ResourcesOf(nodes), links.Values
      ensures PaidFor(net, stock, requestedResources, networkRequirements, path, result, left) && Holding(left)
    {
      ghost var j := DuIndex(stock, requestedResources, path);
      FirstFitIsDu(stock, requestedResources, path);
      NodeAt(nodes, links, net, path, j);
      NodeAt(nodes, links, net, path, 1);
      NoNameMissing(nodes, links, net);
      left := stock;
      if duNode !in nodes {
        return NilNode, left;
      }
      ChainPays(stock, path, j);
      left := Charged(stock, duNode, requestedResources);
      var refused := DebitNode(nodes, duNode, requestedResources, links, net, stock);
      if refused {
        return Refused, left;
      }
      left := Charged(left, cuNode, requestedResources);
      refused := DebitNode(nodes, cuNode, requestedResources, links, net, Charged(stock, duNode, requestedResources));
      if refused {
        return Refused, left;
      }
      refused := DebitLinks(path, cuNode, duNode, j, left);
      left := left.(bw := Debited(net, stock.bw, networkRequirements, path, j));
      if refused {
        return Refused, left;
      }
      return Allocated, left;
    }
  }
}
