/** The greedy placement: reserve every RU, then place or skip each RU's chain in turn. */
module Placement {
  import opened Graphs
  import opened MultiPathSearch
  import opened Chains
  import opened Cluster
  import opened Topology
  import opened Dsg8
  import opened Ledger
  import opened Options
  import opened Outcomes

  ghost function FieldsOf(ru: ChainPosition): Fields
    reads ru
  {
    Fields(ru.cuNode, ru.duNode, ru.path, ru.disaggregation)
  }

  ghost function AllFields(rus: seq<ChainPosition>): seq<Fields>
    reads rus
  {
    seq(|rus|, i requires 0 <= i < |rus| reads rus => FieldsOf(rus[i]))
  }

  function NamesOf(rus: seq<ChainPosition>): seq<Name> {
    seq(|rus|, i requires 0 <= i < |rus| => rus[i].ruNode)
  }

  lemma NeighboursClosed(net: Net)
    requires Wired(net)
    ensures Closed(Neighbours(net))
  {
    forall a, b | a in Neighbours(net) && b in Neighbours(net)[a] ensures b in Neighbours(net) {
      assert Edge(net, a, b);
    }
  }

  lemma InitialHolds(nodes: map<Name, Node>, links: map<Name, Link>, net: Net, stock: Stock)
    requires Valid(nodes, links, net) && AsAllocatable(nodes, stock) && LinksHold(links, stock.bw)
    ensures Holds(nodes, links, net, stock)
  {
  }

  method NewPlacementBFS(topology: TopologySpec, disaggregations: map<string, Requirements>,
                         allocatable: map<Name, Allocatable>, requestedResources: Request)
    returns (p: PlacementBFS)
    requires WellFormed(topology, allocatable)
    ensures p.requestedResources == requestedResources && p.disaggregations == disaggregations
    ensures p.root in topology.nodes && topology.nodes[p.root] && p.nodes.Keys == topology.nodes.Keys
    ensures Describes(topology, topology.links.Keys, p.net)
    ensures p.Holding(InitialStock(topology, allocatable))
    ensures fresh(ResourcesOf(p.nodes)) && fresh(p.remainingBandwidth.Values)
  {
    var core, graphNodes := BuildNodes(topology, allocatable);
    var links, net := BuildLinks(topology, graphNodes);
    p := new PlacementBFS(core, graphNodes, links, requestedResources, disaggregations, net);
    InitialHolds(graphNodes, links, net, InitialStock(topology, allocatable));
  }

  class PlacementBFS {
    const root: Name
    const nodes: map<Name, Node>
    const remainingBandwidth: map<Name, Link>
    const requestedResources: Request
    const disaggregations: map<string, Requirements>
    ghost const net: Net

    constructor (root: Name, nodes: map<Name, Node>, remainingBandwidth: map<Name, Link>,
                 requestedResources: Request, disaggregations: map<string, Requirements>, ghost net: Net)
      ensures this.root == root && this.nodes == nodes && this.remainingBandwidth == remainingBandwidth
      ensures this.requestedResources == requestedResources && this.disaggregations == disaggregations
      ensures this.net == net
    {
      this.root, this.nodes, this.remainingBandwidth, this.net := root, nodes, remainingBandwidth, net;
      this.requestedResources, this.disaggregations := requestedResources, disaggregations;
    }

    ghost predicate Holding(stock: Stock)
      reads nodes.Values, ResourcesOf(nodes), remainingBandwidth.Values
    {
      Holds(nodes, remainingBandwidth, net, stock)
    }

    ghost function Network(): Graph { Neighbours(net) }

    ghost function Fixed(): Setup
      requires DSG8_KEY in disaggregations
    {
      Setup(net, root, requestedResources, disaggregations[DSG8_KEY])
    }

    /** Queues the extensions of the path by every unvisited neighbour, in any order. */
    method Expand(path: Path, visited: set<Name>, queue: seq<Path>) returns (longer: seq<Path>, ghost order: seq<Name>)
      requires Valid(nodes, remainingBandwidth, net) && Last(path) in nodes
      ensures longer == queue + Kids(path, order)
      ensures Distinct(order) && forall n :: n in order <==> n in Network()[Last(path)] && n !in visited
    {
      var todo := nodes[Last(path)].links.Keys;
      assert NodeFits(nodes, net, Last(path));
      longer, order := queue, [];
      while todo != {}
        invariant todo <= Network()[Last(path)]
        invariant longer == queue + Kids(path, order)
        invariant Distinct(order)
        invariant forall n :: n in order <==> n in Network()[Last(path)] - todo && n !in visited
        decreases todo
      {
        var nodeName :| nodeName in todo;
        if nodeName !in visited {
          KidsSnoc(queue, path, order, nodeName);
          longer := longer + [path + [nodeName]];
          order := order + [nodeName];
        }
        todo := todo - {nodeName};
      }
    }

    /** One turn of the search: the head of the queue is taken, recorded if it arrives, and extended. */
    method Turn(nodeToFind: Name, visited: set<Name>, queue: seq<Path>, found: seq<Path>, ghost s: Search)
      returns (visited': set<Name>, queue': seq<Path>, found': seq<Path>, ghost s': Search)
      requires Valid(nodes, remainingBandwidth, net) && queue != []
      requires s.queue == queue && s.visited == visited && s.found == found
      requires Inv(Network(), root, nodeToFind, s)
      ensures s'.queue == queue' && s'.visited == visited' && s'.found == found'
      ensures Inv(Network(), root, nodeToFind, s') && Remaining(Network(), s') < Remaining(Network(), s)
      ensures OneTurn(Network(), nodeToFind, s, s')
    {
      var path := queue[0];
      HeadOnGraph(Network(), root, nodeToFind, s);
      var currentNode := path[|path|-1];
      visited', found' := visited + {currentNode}, found;
      if currentNode == nodeToFind {
        found' := found' + [path];
      }
      ghost var order;
      queue', order := Expand(path, visited', queue[1..]);
      s' := Search(s.done + [path], queue', visited', found');
      NeighboursClosed(net);
      TurnAdvances(Network(), root, nodeToFind, s, order, s');
    }

    /** The multi-path search: what it finds, in whatever order neighbours are met. */
    method FindPathsTo(nodeToFind: Name) returns (pathsToNode: seq<Path>)
      requires Valid(nodes, remainingBandwidth, net) && root in nodes
      ensures Result(Network(), root, nodeToFind, pathsToNode)
      ensures Returns(Network(), root, nodeToFind, pathsToNode)
    {
      var visited: set<Name> := {};
      var queue: seq<Path> := [[root]];
      pathsToNode := [];
      ghost var s := Start(root);
      StartInv(Network(), root, nodeToFind);
      while queue != []
        invariant s.queue == queue && s.visited == visited && s.found == pathsToNode
        invariant Inv(Network(), root, nodeToFind, s) && Comes(Network(), root, nodeToFind, s)
        decreases Remaining(Network(), s)
      {
        ghost var before := s;
        visited, queue, pathsToNode, s := Turn(nodeToFind, visited, queue, pathsToNode, s);
        OneMoreTurn(Network(), root, nodeToFind, before, s);
      }
      FinishedFinds(Network(), root, nodeToFind, s);
    }

    /** Charges every RU to its node; stops at the first node that this overdraws, without undoing anything. */
    method AllocateRUsResources(rus: seq<Name>, ghost stock: Stock) returns (failedAt: Option<nat>, ghost left: Stock)
      requires Holding(stock) && forall ru :: ru in rus ==> ru in nodes
      modifies ResourcesOf(nodes)
      ensures Holding(left) && Reserved(stock, requestedResources, rus, failedAt, left)
    {
      left := stock;
      for i := 0 to |rus|
        invariant Holding(left) && left == Reserve(stock, requestedResources, rus[..i])
        invariant ReservedUpTo(stock, requestedResources, rus, i)
      {
        ReserveStep(stock, requestedResources, rus, i);
        var refused := DebitNode(nodes, rus[i], requestedResources, remainingBandwidth, net, left);
        left := Charged(left, rus[i], requestedResources);
        if refused {
          return Some(i), left;
        }
      }
      assert rus[..|rus|] == rus;
      return None, left;
    }

    method FulfillRU(ru: ChainPosition, finalPos: Position)
      modifies ru
      ensures FieldsOf(ru) ==
              Fields(finalPos.cuNodeName, finalPos.duNodeName, finalPos.path, finalPos.disaggregationKey)
    {
      ru.duNode := finalPos.duNodeName;
      ru.cuNode := finalPos.cuNodeName;
      ru.path := finalPos.path;
      ru.disaggregation := finalPos.disaggregationKey;
    }

    /** Recording a position touches no node and no link. */
    method Record(ru: ChainPosition, finalPos: Position, ghost stock: Stock)
      requires Holding(stock)
      modifies ru
      ensures Holding(stock)
      ensures FieldsOf(ru) ==
              Fields(finalPos.cuNodeName, finalPos.duNodeName, finalPos.path, finalPos.disaggregationKey)
    {
      FulfillRU(ru, finalPos);
    }

    ghost predicate Shares(dsg8: Disaggregation8)
      requires DSG8_KEY in disaggregations
    {
      && dsg8.nodes == nodes && dsg8.links == remainingBandwidth && dsg8.net == net
      && dsg8.requestedResources == requestedResources
      && dsg8.networkRequirements == disaggregations[DSG8_KEY]
    }

    /** The paths to an RU's node, as validation takes them. */
    method PathsFor(ruNode: Name) returns (paths: seq<Path>)
      requires DSG8_KEY in disaggregations && Valid(nodes, remainingBandwidth, net) && root in nodes
      ensures Searched(Fixed(), ruNode, paths) && AllSimple(net, paths)
      ensures (exists i :: 0 <= i < |paths| && |paths[i]| < 2) <==> ruNode == root
    {
      paths := FindPathsTo(ruNode);
      FoundAreSimple(net, root, ruNode, paths);
      ShortPathMeansRoot(Network(), root, ruNode, paths);
    }

    /** What became of one RU, and what the objects hold then. */
    ghost predicate Became(stock: Stock, ru: Name, before: Fields, after: Fields, outcome: RuOutcome, e: Event,
                           left: Stock)
      requires DSG8_KEY in disaggregations
      reads nodes.Values, ResourcesOf(nodes), remainingBandwidth.Values
    {
      Handled(Fixed(), stock, ru, before, after, outcome, e, left) && Holding(left)
    }

    /** How the placement of a request has ended, and what the objects hold then. */
    ghost predicate Ended(names: seq<Name>, stock: Stock, before: seq<Fields>, outcome: Outcome, events: seq<Event>,
                          after: seq<Fields>, left: Stock)
      requires DSG8_KEY in disaggregations
      reads nodes.Values, ResourcesOf(nodes), remainingBandwidth.Values
    {
      Finished(Fixed(), names, stock, before, outcome, events, after, left) && Holding(left)
    }

    method Judge(ruNode: Name, dsg8: Disaggregation8, ghost stock: Stock) returns (verdict: Verdict)
      requires DSG8_KEY in disaggregations && root in nodes && Holding(stock) && Shares(dsg8)
      ensures Holding(stock) && Judged(Fixed(), stock, ruNode, verdict)
    {
      var paths := PathsFor(ruNode);
      verdict := dsg8.Validate(paths, stock);
      VerdictMeans(Fixed(), stock, ruNode, paths, verdict);
    }

    /** Records an accepted position and pays for it. */
    method Commit(ru: ChainPosition, dsg8: Disaggregation8, position: Position, ghost stock: Stock)
      returns (outcome: RuOutcome, ghost e: Event, ghost left: Stock)
      requires DSG8_KEY in disaggregations && Holding(stock) && Shares(dsg8)
      requires Judged(Fixed(), stock, ru.ruNode, Accepted(position))
      modifies ResourcesOf(nodes), remainingBandwidth.Values, ru
      ensures Became(stock, ru.ruNode, old(FieldsOf(ru)), FieldsOf(ru), outcome, e, left)
    {
      AcceptedIsSimple(Fixed(), stock, ru.ruNode, position);
      Record(ru, position, stock);
      var result;
      result, left := dsg8.AllocateResources(position.path, position.cuNodeName, position.duNodeName, stock);
      PaidIsHandled(Fixed(), stock, ru.ruNode, old(FieldsOf(ru)), FieldsOf(ru), position, result, left);
      outcome, e := OutcomeOf(result), EventOf(Fixed(), stock, position.path, result);
    }

    /** One RU: search, validate, record, allocate. */
    method PlaceOne(ru: ChainPosition, dsg8: Disaggregation8, ghost stock: Stock)
      returns (outcome: RuOutcome, ghost e: Event, ghost left: Stock)
      requires DSG8_KEY in disaggregations && root in nodes && Holding(stock) && Shares(dsg8)
      modifies ResourcesOf(nodes), remainingBandwidth.Values, ru
      ensures Became(stock, ru.ruNode, old(FieldsOf(ru)), FieldsOf(ru), outcome, e, left)
    {
      var verdict := Judge(ru.ruNode, dsg8, stock);
      match verdict {
        case OutOfRange => return NoSecondNode, Skipped, stock;
        case Rejected => return Done, Skipped, stock;
        case Accepted(position) => outcome, e, left := Commit(ru, dsg8, position, stock);
      }
    }

    lemma OnlyOneChanged(rus: seq<ChainPosition>, before: seq<Fields>, i: nat)
      requires |before| == |rus| && i < |rus|
      requires forall k :: 0 <= k < |rus| && k != i ==> FieldsOf(rus[k]) == before[k]
      ensures AllFields(rus) == before[i := FieldsOf(rus[i])]
    {
    }

    /** Placing one RU of a request changes no other RU's fields. */
    method PlaceAmong(rus: seq<ChainPosition>, i: nat, dsg8: Disaggregation8, ghost stock: Stock)
      returns (done: RuOutcome, ghost e: Event, ghost left: Stock)
      requires DSG8_KEY in disaggregations && root in nodes && Holding(stock) && Shares(dsg8)
      requires Distinct(rus) && i < |rus|
      modifies ResourcesOf(nodes), remainingBandwidth.Values, rus[i]
      ensures Became(stock, rus[i].ruNode, old(FieldsOf(rus[i])), FieldsOf(rus[i]), done, e, left)
      ensures forall k :: 0 <= k < |rus| && k != i ==> FieldsOf(rus[k]) == old(FieldsOf(rus[k]))
    {
      done, e, left := PlaceOne(rus[i], dsg8, stock);
    }

    /** One turn of the placement loop. */
    method PlaceNext(rus: seq<ChainPosition>, i: nat, dsg8: Disaggregation8, ghost stock: Stock)
      returns (done: RuOutcome, ghost e: Event, ghost left: Stock, ghost after: Fields)
      requires DSG8_KEY in disaggregations && root in nodes && Holding(stock) && Shares(dsg8)
      requires Distinct(rus) && i < |rus|
      modifies ResourcesOf(nodes), remainingBandwidth.Values, rus
      ensures Became(stock, rus[i].ruNode, old(FieldsOf(rus[i])), after, done, e, left)
      ensures AllFields(rus) == old(AllFields(rus))[i := after]
    {
      ghost var before := AllFields(rus);
      done, e, left := PlaceAmong(rus, i, dsg8, stock);
      after := FieldsOf(rus[i]);
      OnlyOneChanged(rus, before, i);
    }

    /**
      Reserves every RU and then places or skips each chain.  Nothing is ever refused once the RUs are
      reserved; what can go wrong is an RU on the core and an accepted chain without a DU.
     */
    method Place(rus: seq<ChainPosition>, ghost stock: Stock)
      returns (outcome: Outcome, ghost events: seq<Event>, ghost left: Stock)
      requires DSG8_KEY in disaggregations && root in nodes && Holding(stock)
      requires Distinct(rus) && forall ru :: ru in NamesOf(rus) ==> ru in nodes
      modifies ResourcesOf(nodes), remainingBandwidth.Values, rus
      ensures Ended(NamesOf(rus), stock, old(AllFields(rus)), outcome, events, AllFields(rus), left)
    {
      ghost var before := AllFields(rus);
      var failedAt;
      failedAt, left := Reservation(rus, stock);
      events := [];
      if failedAt.Some? {
        ReservationStopped(Fixed(), NamesOf(rus), stock, before, failedAt.value, left);
        return ReservationFailed(failedAt.value), events, left;
      }
      NothingPlaced(Fixed(), NamesOf(rus), stock, before);
      outcome, events, left := PlaceAll(rus, stock, before, left);
    }

    /** The placement loop. */
    method PlaceAll(rus: seq<ChainPosition>, ghost stock: Stock, ghost before: seq<Fields>, ghost reserved: Stock)
      returns (outcome: Outcome, ghost events: seq<Event>, ghost left: Stock)
      requires DSG8_KEY in disaggregations && root in nodes && Distinct(rus) && Holding(reserved)
      requires BetweenTurns(Fixed(), NamesOf(rus), stock, before, [], AllFields(rus), reserved)
      modifies ResourcesOf(nodes), remainingBandwidth.Values, rus
      ensures Ended(NamesOf(rus), stock, before, outcome, events, AllFields(rus), left)
    {
      var dsg8 := new Disaggregation8(nodes, requestedResources, disaggregations[DSG8_KEY], remainingBandwidth, net);
      events, left := [], reserved;
      for i := 0 to |rus|
        invariant |events| == i && Holding(left)
        invariant BetweenTurns(Fixed(), NamesOf(rus), stock, before, events, AllFields(rus), left)
      {
        ghost var fields, now, was := AllFields(rus), left, FieldsOf(rus[i]);
        ghost var e, after;
        var done;
        done, e, left, after := PlaceNext(rus, i, dsg8, now);
        if !done.Done? {
          TurnPanics(Fixed(), NamesOf(rus), stock, before, events, fields, now, rus[i].ruNode, was, after, done, e,
                     left);
          return if done.NoDu? then NoDuPanic(i) else CorePanic(i), events, left;
        }
        TurnDone(Fixed(), NamesOf(rus), stock, before, events, fields, now, rus[i].ruNode, was, after, e, left);
        events := events + [e];
      }
      AllPlaced(Fixed(), NamesOf(rus), stock, before, events, AllFields(rus), left);
      return Completed, events, left;
    }

    method Reservation(rus: seq<ChainPosition>, ghost stock: Stock) returns (failedAt: Option<nat>, ghost left: Stock)
      requires DSG8_KEY in disaggregations && Holding(stock)
      requires forall ru :: ru in NamesOf(rus) ==> ru in nodes
      modifies ResourcesOf(nodes)
      ensures Holding(left) && Reserved(stock, requestedResources, NamesOf(rus), failedAt, left)
      ensures AllFields(rus) == old(AllFields(rus))
    {
      failedAt, left := AllocateRUsResources(NamesOf(rus), stock);
    }
  }

  lemma ReserveStep(s: Stock, request: Request, rus: seq<Name>, i: nat)
    requires i < |rus|
    ensures Reserve(s, request, rus[..i+1]) == Charged(Reserve(s, request, rus[..i]), rus[i], request)
    ensures ReservedUpTo(s, request, rus, i + 1) <==>
              ReservedUpTo(s, request, rus, i) && Covered(Reserve(s, request, rus[..i+1]), rus[i])
  {
    assert rus[..i+1][..i] == rus[..i];
  }

  lemma FoundAreSimple(net: Net, root: Name, target: Name, paths: seq<Path>)
    requires Result(Neighbours(net), root, target, paths)
    ensures AllSimple(net, paths)
  {
  }

  /** The search reports a path without a second node exactly when the RU is on the core. */
  lemma ShortPathMeansRoot(g: Graph, root: Name, target: Name, paths: seq<Path>)
    requires Result(g, root, target, paths) && root in g
    ensures (exists i :: 0 <= i < |paths| && |paths[i]| < 2) <==> target == root
  {
    if i :| 0 <= i < |paths| && |paths[i]| < 2 {
      assert paths[i] in paths;
    }
    if target == root {
      assert Shortest(g, root, target, [root]);
      var i :| 0 <= i < |paths| && paths[i] == [root];
    }
  }

  /** What validation's verdict on the paths found for an RU says about it. */
  lemma VerdictMeans(c: Setup, s: Stock, ru: Name, paths: seq<Path>, verdict: Verdict)
    requires Searched(c, ru, paths)
    requires (exists i :: 0 <= i < |paths| && |paths[i]| < 2) <==> ru == c.root
    requires Decides(c.net, s, c.request, c.reqs, paths, verdict)
    ensures Judged(c, s, ru, verdict)
  {
    if verdict.Rejected? {
      RejectedIsSkip(c, s, ru, paths);
    }
  }

  lemma AcceptedIsSimple(c: Setup, s: Stock, ru: Name, position: Position)
    requires Judged(c, s, ru, Accepted(position))
    ensures SimplePath(c.net, position.path) && Feasible(c.net, s, c.request, c.reqs, position.path)
    ensures position == CandidateOf(s, c.request, position.path)
  {
    FoundIsEligible(c, ru, position.path);
  }
}
