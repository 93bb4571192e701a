/** The mutable objects of the placement: nodes with their resources, and the links they share. */
module Cluster {
  import opened Graphs
  import opened Chains

  class Resources {
    /** The node they belong to. */
    ghost const owner: Name
    var memoryAvailable: int
    var cpuAvailable: int

    constructor (ghost owner: Name, memory: int, cpu: int)
      ensures this.owner == owner && memoryAvailable == memory && cpuAvailable == cpu
    {
      this.owner, memoryAvailable, cpuAvailable := owner, memory, cpu;
    }
  }

  class Link {
    const linkName: Name
    const latency: real
    var availableBandwidth: real

    constructor (linkName: Name, latency: real, bandwidth: real)
      ensures this.linkName == linkName && this.latency == latency && availableBandwidth == bandwidth
    {
      this.linkName, this.latency, availableBandwidth := linkName, latency, bandwidth;
    }

    predicate HasBandwidth(required: real)
      reads this
    {
      availableBandwidth >= required
    }

    /** Debits first and complains afterwards: a failed debit is not undone. */
    method AllocateResources(required: real) returns (failed: bool)
      modifies this
      ensures availableBandwidth == old(availableBandwidth) - required
      ensures failed <==> old(availableBandwidth) < required
    {
      availableBandwidth := availableBandwidth - required;
      failed := availableBandwidth < 0.0;
    }
  }

  class Node {
    const nodeName: Name
    const resources: Resources
    /** Keyed by the neighbour's name. */
    var links: map<Name, Link>

    constructor (nodeName: Name, resources: Resources)
      ensures this.nodeName == nodeName && this.resources == resources && links == map[]
    {
      this.nodeName, this.resources, links := nodeName, resources, map[];
    }

    predicate HasResources(request: Request)
      reads resources
    {
      Fits(resources.memoryAvailable, resources.cpuAvailable, request)
    }

    /** Debits first and complains afterwards; rounding away from zero keeps the sign. */
    method AllocateResources(request: Request) returns (failed: bool)
      modifies resources
      ensures resources.memoryAvailable == old(resources.memoryAvailable) - request.mem
      ensures resources.cpuAvailable == old(resources.cpuAvailable) - request.cpu
      ensures failed <==> resources.memoryAvailable < 0 || resources.cpuAvailable < 0
    {
      resources.memoryAvailable := resources.memoryAvailable - request.mem;
      resources.cpuAvailable := resources.cpuAvailable - request.cpu;
      failed := Value(resources.cpuAvailable) < 0 || Value(resources.memoryAvailable) < 0;
    }
  }

  /** One RU of the request, and the place found for its chain. */
  class ChainPosition {
    const splitName: Name
    const ruNode: Name
    var cuNode: Name
    var duNode: Name
    var path: Path
    var disaggregation: string

    constructor (splitName: Name, ruNode: Name)
      ensures this.splitName == splitName && this.ruNode == ruNode
      ensures cuNode == NO_NAME && duNode == NO_NAME && path == [] && disaggregation == ""
    {
      this.splitName, this.ruNode := splitName, ruNode;
      cuNode, duNode, path, disaggregation := NO_NAME, NO_NAME, [], "";
    }
  }

  // ---- the objects as values ----

  ghost function ResourcesOf(nodes: map<Name, Node>): set<Resources> {
    set n | n in nodes :: nodes[n].resources
  }

  ghost function BandwidthOf(links: map<Name, Link>): map<Name, real>
    reads links.Values
  {
    map l | l in links :: links[l].availableBandwidth
  }

  ghost function MemoryOf(nodes: map<Name, Node>): map<Name, int>
    reads ResourcesOf(nodes)
  {
    map n | n in nodes :: nodes[n].resources.memoryAvailable
  }

  ghost function CpuOf(nodes: map<Name, Node>): map<Name, int>
    reads ResourcesOf(nodes)
  {
    map n | n in nodes :: nodes[n].resources.cpuAvailable
  }

  /** The link stored at `a` for its neighbour `b` is the one object registered under the edge's link name. */
  ghost predicate Shared(nodes: map<Name, Node>, links: map<Name, Link>, net: Net, a: Name, b: Name)
    requires a in nodes && Edge(net, a, b)
    reads nodes[a]
  {
    b in nodes[a].links && net.wire[a][b] in links && nodes[a].links[b] == links[net.wire[a][b]]
  }

  /** Node `n` carries its name, resources of its own, and a link for each neighbour. */
  ghost predicate NodeFits(nodes: map<Name, Node>, net: Net, n: Name)
    requires n in nodes && n in net.wire
    reads nodes[n]
  {
    nodes[n].nodeName == n && nodes[n].resources.owner == n && nodes[n].links.Keys == net.wire[n].Keys
  }

  ghost predicate LinkFits(links: map<Name, Link>, net: Net, l: Name)
    requires l in links && l in net.latency
  {
    links[l].linkName == l && links[l].latency == net.latency[l]
  }

  /**
    The objects carry the network `net`, and names identify objects: an edge is one link object seen
    from both ends, different link names are different objects, and no two nodes share resources.
   */
  ghost predicate Valid(nodes: map<Name, Node>, links: map<Name, Link>, net: Net)
    reads nodes.Values
  {
    && Wired(net)
    && nodes.Keys == net.wire.Keys && links.Keys == net.latency.Keys
    && (forall n {:trigger NodeFits(nodes, net, n)} :: n in nodes ==> NodeFits(nodes, net, n))
    && (forall l {:trigger LinkFits(links, net, l)} :: l in links ==> LinkFits(links, net, l))
    && (forall a, b {:trigger Edge(net, a, b)} :: Edge(net, a, b) ==> Shared(nodes, links, net, a, b))
  }

  ghost predicate NodeHolds(nodes: map<Name, Node>, stock: Stock, n: Name)
    requires n in nodes && n in stock.mem && n in stock.cpu
    reads nodes[n].resources
  {
    nodes[n].resources.memoryAvailable == stock.mem[n] && nodes[n].resources.cpuAvailable == stock.cpu[n]
  }

  ghost predicate LinkHolds(links: map<Name, Link>, bw: map<Name, real>, l: Name)
    requires l in links && l in bw
    reads links[l]
  {
    links[l].availableBandwidth == bw[l]
  }

  /** `bw` is what is left on the links. */
  ghost predicate LinksHold(links: map<Name, Link>, bw: map<Name, real>)
    reads links.Values
  {
    bw.Keys == links.Keys && forall l {:trigger LinkHolds(links, bw, l)} :: l in links ==> LinkHolds(links, bw, l)
  }

  /** The objects are consistent, and `stock` is what is left on the nodes. */
  ghost predicate NodesHold(nodes: map<Name, Node>, links: map<Name, Link>, net: Net, stock: Stock)
    reads nodes.Values, ResourcesOf(nodes)
  {
    && Valid(nodes, links, net)
    && stock.mem.Keys == nodes.Keys && stock.cpu.Keys == nodes.Keys
    && forall n {:trigger NodeHolds(nodes, stock, n)} :: n in nodes ==> NodeHolds(nodes, stock, n)
  }

  /** The objects are consistent, and `stock` is what is left on nodes and links. */
  ghost predicate Holds(nodes: map<Name, Node>, links: map<Name, Link>, net: Net, stock: Stock)
    reads nodes.Values, ResourcesOf(nodes), links.Values
  {
    NodesHold(nodes, links, net, stock) && LinksHold(links, stock.bw)
  }

  /** The stock that the objects hold, read off them. */
  lemma HeldAmounts(nodes: map<Name, Node>, links: map<Name, Link>, net: Net, stock: Stock)
    requires Holds(nodes, links, net, stock)
    ensures MemoryOf(nodes) == stock.mem && CpuOf(nodes) == stock.cpu && BandwidthOf(links) == stock.bw
  {
    forall n | n in nodes ensures MemoryOf(nodes)[n] == stock.mem[n] && CpuOf(nodes)[n] == stock.cpu[n] {
      assert NodeHolds(nodes, stock, n);
    }
    forall l | l in links ensures BandwidthOf(links)[l] == stock.bw[l] {
      assert LinkHolds(links, stock.bw, l);
    }
  }

  /** A hop of a simple path leads over the link object registered under the hop's link name. */
  lemma HopLink(nodes: map<Name, Node>, links: map<Name, Link>, net: Net, path: Path, i: nat)
    requires Valid(nodes, links, net) && SimplePath(net, path) && i + 1 < |path|
    ensures path[i] in nodes && path[i+1] in nodes[path[i]].links
    ensures var l := LinkAt(net, path, i);
            l in links && links[l] == nodes[path[i]].links[path[i+1]] && links[l].latency == LatencyOf(net, l)
  {
    StepIsEdge(net, path, i);
    assert Shared(nodes, links, net, path[i], path[i+1]);
    assert LinkFits(links, net, LinkAt(net, path, i));
  }

  lemma NoNameMissing(nodes: map<Name, Node>, links: map<Name, Link>, net: Net)
    requires Valid(nodes, links, net)
    ensures NO_NAME !in nodes
  {
  }

  lemma OnNodes(nodes: map<Name, Node>, links: map<Name, Link>, net: Net, path: Path)
    requires Valid(nodes, links, net) && SimplePath(net, path)
    ensures NO_NAME !in path
  {
  }

  lemma NodeAt(nodes: map<Name, Node>, links: map<Name, Link>, net: Net, path: Path, i: nat)
    requires Valid(nodes, links, net) && SimplePath(net, path) && i < |path|
    ensures path[i] in nodes && path[i] != NO_NAME
  {
  }

  lemma NodeCharged(nodes: map<Name, Node>, links: map<Name, Link>, net: Net, stock: Stock, n: Name, request: Request)
    requires Valid(nodes, links, net) && LinksHold(links, stock.bw)
    requires n in nodes && stock.mem.Keys == nodes.Keys && stock.cpu.Keys == nodes.Keys
    requires nodes[n].resources.memoryAvailable == stock.mem[n] - request.mem
    requires nodes[n].resources.cpuAvailable == stock.cpu[n] - request.cpu
    requires forall m {:trigger NodeHolds(nodes, stock, m)} :: m in nodes && m != n ==> NodeHolds(nodes, stock, m)
    ensures Holds(nodes, links, net, Charged(stock, n, request))
  {
    var after := Charged(stock, n, request);
    forall m | m in nodes ensures NodeHolds(nodes, after, m) {
      assert m != n ==> NodeHolds(nodes, stock, m);
    }
  }

  lemma LinkCharged(links: map<Name, Link>, bw: map<Name, real>, l: Name, required: real)
    requires l in links && bw.Keys == links.Keys && links[l].availableBandwidth == bw[l] - required
    requires forall m {:trigger LinkHolds(links, bw, m)} :: m in links && m != l ==> LinkHolds(links, bw, m)
    ensures LinksHold(links, bw[l := bw[l] - required])
  {
    forall m | m in links ensures LinkHolds(links, bw[l := bw[l] - required], m) {
      assert m != l ==> LinkHolds(links, bw, m);
    }
  }

  /** Debits the link object registered under `l`; the other links keep their bandwidth. */
  method DebitLink(link: Link, required: real, ghost links: map<Name, Link>, ghost net: Net, ghost bw: map<Name, real>)
    returns (refused: bool)
    requires link.linkName in links && links[link.linkName] == link && LinksHold(links, bw)
    requires links.Keys == net.latency.Keys
    requires forall l {:trigger LinkFits(links, net, l)} :: l in links ==> LinkFits(links, net, l)
    modifies link
    ensures LinksHold(links, bw[link.linkName := bw[link.linkName] - required])
    ensures refused <==> bw[link.linkName] < required
  {
    assert LinkHolds(links, bw, link.linkName);
    refused := link.AllocateResources(required);
    forall m | m in links && m != link.linkName ensures LinkHolds(links, bw, m) {
      assert old(LinkHolds(links, bw, m)) && LinkFits(links, net, m);
    }
    LinkCharged(links, bw, link.linkName, required);
  }

  /** Charges one node; the rest of the stock stays. */
  method DebitNode(nodes: map<Name, Node>, n: Name, request: Request,
                   ghost links: map<Name, Link>, ghost net: Net, ghost stock: Stock) returns (refused: bool)
    requires Holds(nodes, links, net, stock) && n in nodes
    modifies ResourcesOf(nodes)
    ensures Holds(nodes, links, net, Charged(stock, n, request))
    ensures refused <==> Short(stock, request, n)
  {
    assert NodeHolds(nodes, stock, n) && NodeFits(nodes, net, n);
    refused := nodes[n].AllocateResources(request);
    forall m | m in nodes && m != n ensures NodeHolds(nodes, stock, m) {
      assert old(NodeHolds(nodes, stock, m)) && NodeFits(nodes, net, m);
    }
    NodeCharged(nodes, links, net, stock, n, request);
  }
}
