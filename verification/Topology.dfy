/** From a topology description to the objects of the placement: nodes, and links shared by both ends. */
module Topology {
  import opened Graphs
  import opened Chains
  import opened Cluster

  datatype LinkSpec = LinkSpec(capacity: real, delay: real, source: Name, destination: Name)

  /** Which nodes there are and which of them are core; and the links, by name. */
  datatype TopologySpec = TopologySpec(nodes: map<Name, bool>, links: map<Name, LinkSpec>)

  datatype Allocatable = Allocatable(memory: int, cpu: int)

  /** What the construction relies on without checking it. */
  ghost predicate WellFormed(t: TopologySpec, allocatable: map<Name, Allocatable>) {
    && NO_NAME !in t.nodes
    && (exists n :: n in t.nodes && t.nodes[n])
    && t.nodes.Keys <= allocatable.Keys
    && (forall l :: l in t.links ==> t.links[l].source in t.nodes && t.links[l].destination in t.nodes)
  }

  ghost predicate JoinsEnds(spec: LinkSpec, a: Name, b: Name) {
    (spec.source == a && spec.destination == b) || (spec.source == b && spec.destination == a)
  }

  /** The described link `l` joins its ends in the network, with its latency. */
  ghost predicate Represents(t: TopologySpec, net: Net, l: Name)
    requires l in t.links
  {
    && Edge(net, t.links[l].source, t.links[l].destination)
    && l in net.latency && net.latency[l] == t.links[l].delay
  }

  /** The network is the description of the links `done`: adjacent means joined by one of them. */
  ghost predicate Describes(t: TopologySpec, done: set<Name>, net: Net) {
    && done <= t.links.Keys
    && net.wire.Keys == t.nodes.Keys && net.latency.Keys == done
    && (forall a, b {:trigger Edge(net, a, b)} :: Edge(net, a, b) ==>
          net.wire[a][b] in done && JoinsEnds(t.links[net.wire[a][b]], a, b))
    && (forall l {:trigger Represents(t, net, l)} :: l in done ==> Represents(t, net, l))
  }

  /** The network with one more link, which replaces an older one between the same nodes. */
  ghost function AddLink(net: Net, l: Name, spec: LinkSpec): Net
    requires spec.source in net.wire && spec.destination in net.wire
  {
    var a, b := spec.source, spec.destination;
    var wire := net.wire[a := net.wire[a][b := l]];
    Net(wire[b := wire[b][a := l]], net.latency[l := spec.delay])
  }

  lemma AddedEdges(net: Net, l: Name, spec: LinkSpec, a: Name, b: Name)
    requires spec.source in net.wire && spec.destination in net.wire
    ensures var net' := AddLink(net, l, spec);
            && (Edge(net', a, b) <==> Edge(net, a, b) || JoinsEnds(spec, a, b))
            && (Edge(net', a, b) ==> net'.wire[a][b] == if JoinsEnds(spec, a, b) then l else net.wire[a][b])
  {
  }

  lemma AddLinkWired(net: Net, l: Name, spec: LinkSpec)
    requires Wired(net) && l !in net.latency
    requires spec.source in net.wire && spec.destination in net.wire
    ensures Wired(AddLink(net, l, spec))
  {
    var net' := AddLink(net, l, spec);
    forall a, b | Edge(net', a, b)
      ensures Edge(net', b, a) && net'.wire[a][b] == net'.wire[b][a] && net'.wire[a][b] in net'.latency
    {
      AddedEdges(net, l, spec, a, b);
      AddedEdges(net, l, spec, b, a);
    }
    forall a, b, c, d | Edge(net', a, b) && Edge(net', c, d) && net'.wire[a][b] == net'.wire[c][d]
      ensures (a == c && b == d) || (a == d && b == c)
    {
      AddedEdges(net, l, spec, a, b);
      AddedEdges(net, l, spec, c, d);
    }
  }

  lemma AddLinkKeys(net: Net, l: Name, spec: LinkSpec)
    requires spec.source in net.wire && spec.destination in net.wire
    ensures var net' := AddLink(net, l, spec);
            net'.wire.Keys == net.wire.Keys && net'.latency.Keys == net.latency.Keys + {l}
  {
  }

  lemma AddLinkDescribes(t: TopologySpec, done: set<Name>, net: Net, l: Name, spec: LinkSpec)
    requires Describes(t, done, net) && l in t.links && l !in done && spec == t.links[l]
    requires spec.source in t.nodes && spec.destination in t.nodes
    ensures Describes(t, done + {l}, AddLink(net, l, spec))
  {
    var net' := AddLink(net, l, spec);
    forall a, b | Edge(net', a, b)
      ensures net'.wire[a][b] in done + {l} && JoinsEnds(t.links[net'.wire[a][b]], a, b)
    {
      AddedEdges(net, l, spec, a, b);
    }
    forall m | m in done + {l} ensures Represents(t, net', m) {
      AddedEdges(net, l, spec, t.links[m].source, t.links[m].destination);
      assert m != l ==> Represents(t, net, m);
    }
    AddLinkKeys(net, l, spec);
  }

  ghost function EmptyNet(t: TopologySpec): Net {
    Net(map n | n in t.nodes :: map[], map[])
  }

  /** The stock a topology starts with: allocatable resources on its nodes, full capacity on its links. */
  ghost function InitialStock(t: TopologySpec, allocatable: map<Name, Allocatable>): Stock
    requires t.nodes.Keys <= allocatable.Keys
  {
    Stock(map n | n in t.nodes :: allocatable[n].memory,
          map n | n in t.nodes :: allocatable[n].cpu,
          Capacities(t, t.links.Keys))
  }

  ghost function Capacities(t: TopologySpec, done: set<Name>): map<Name, real>
    requires done <= t.links.Keys
  {
    map l | l in done :: t.links[l].capacity
  }

  /** Each node has the resources that Kubernetes reports for it. */
  ghost predicate AsAllocatable(nodes: map<Name, Node>, stock: Stock)
    reads ResourcesOf(nodes)
  {
    && stock.mem.Keys == nodes.Keys && stock.cpu.Keys == nodes.Keys
    && forall n {:trigger NodeHolds(nodes, stock, n)} :: n in nodes ==> NodeHolds(nodes, stock, n)
  }

  /** One node object for each described node; the core is one of the nodes flagged as such. */
  method BuildNodes(t: TopologySpec, allocatable: map<Name, Allocatable>)
    returns (core: Name, nodes: map<Name, Node>)
    requires WellFormed(t, allocatable)
    ensures core in t.nodes && t.nodes[core]
    ensures nodes.Keys == t.nodes.Keys && Valid(nodes, map[], EmptyNet(t))
    ensures forall n :: n in nodes ==> fresh(nodes[n]) && fresh(nodes[n].resources)
    ensures AsAllocatable(nodes, InitialStock(t, allocatable))
  {
    core, nodes := NO_NAME, map[];
    var todo := t.nodes.Keys;
    while todo != {}
      invariant todo <= t.nodes.Keys && nodes.Keys == t.nodes.Keys - todo
      invariant (core in t.nodes && t.nodes[core]) || (forall n :: n in nodes ==> !t.nodes[n])
      invariant forall n :: n in nodes ==> fresh(nodes[n]) && fresh(nodes[n].resources)
      invariant forall n :: n in nodes ==>
                  nodes[n].nodeName == n && nodes[n].resources.owner == n && nodes[n].links == map[]
      invariant forall n :: n in nodes ==>
                  (n in allocatable
                   && nodes[n].resources.memoryAvailable == allocatable[n].memory
                   && nodes[n].resources.cpuAvailable == allocatable[n].cpu)
      decreases todo
    {
      var name :| name in todo;
      var resources := new Resources(name, allocatable[name].memory, allocatable[name].cpu);
      var node := new Node(name, resources);
      nodes := nodes[name := node];
      if t.nodes[name] {
        core := name;
      }
      todo := todo - {name};
    }
    WiringIsValid(nodes, map[], EmptyNet(t));
    StartsAllocatable(t, allocatable, nodes);
  }

  lemma StartsAllocatable(t: TopologySpec, allocatable: map<Name, Allocatable>, nodes: map<Name, Node>)
    requires nodes.Keys == t.nodes.Keys <= allocatable.Keys
    requires forall n :: n in nodes ==> (nodes[n].resources.memoryAvailable == allocatable[n].memory
                                         && nodes[n].resources.cpuAvailable == allocatable[n].cpu)
    ensures AsAllocatable(nodes, InitialStock(t, allocatable))
  {
  }

  /** One link object for each described link, stored at both of its ends. */
  method BuildLinks(t: TopologySpec, nodes: map<Name, Node>) returns (links: map<Name, Link>, ghost net: Net)
    requires nodes.Keys == t.nodes.Keys && Valid(nodes, map[], EmptyNet(t))
    requires forall l :: l in t.links ==> t.links[l].source in t.nodes && t.links[l].destination in t.nodes
    modifies nodes.Values
    ensures Valid(nodes, links, net) && Describes(t, t.links.Keys, net)
    ensures LinksHold(links, Capacities(t, t.links.Keys)) && forall l :: l in links ==> fresh(links[l])
  {
    links, net := map[], EmptyNet(t);
    var todo := t.links.Keys;
    ghost var done: set<Name> := {};
    while todo != {}
      invariant todo <= t.links.Keys && done == t.links.Keys - todo
      invariant Valid(nodes, links, net) && Describes(t, done, net)
      invariant LinksHold(links, Capacities(t, done)) && forall l :: l in links ==> fresh(links[l])
      decreases todo
    {
      var linkName :| linkName in todo;
      AddLinkWired(net, linkName, t.links[linkName]);
      AddLinkDescribes(t, done, net, linkName, t.links[linkName]);
      var v := BuildLink(nodes, links, net, linkName, t.links[linkName], Capacities(t, done));
      links, net := links[linkName := v], AddLink(net, linkName, t.links[linkName]);
      MoveOver(t, todo, linkName);
      todo, done := todo - {linkName}, done + {linkName};
    }
    NoneLeft(t.links.Keys, todo);
  }

  lemma NoneLeft(all: set<Name>, todo: set<Name>)
    requires todo == {}
    ensures all - todo == all
  {
  }

  lemma MoveOver(t: TopologySpec, todo: set<Name>, x: Name)
    requires x in todo && todo <= t.links.Keys
    ensures var all, done := t.links.Keys, t.links.Keys - todo;
            all - (todo - {x}) == done + {x} &&
            Capacities(t, done + {x}) == Capacities(t, done)[x := t.links[x].capacity]
  {
  }

  /** A node's links once `v` has been stored at both ends of the described link. */
  ghost function WithLink(links: map<Name, Link>, n: Name, spec: LinkSpec, v: Link): map<Name, Link> {
    var there := if n == spec.source then links[spec.destination := v] else links;
    if n == spec.destination then there[spec.source := v] else there
  }

  /** The links stored on each node. */
  ghost function EndsOf(nodes: map<Name, Node>): map<Name, map<Name, Link>>
    reads nodes.Values
  {
    map n | n in nodes :: nodes[n].links
  }

  ghost function Attached(ends: map<Name, map<Name, Link>>, spec: LinkSpec, v: Link): map<Name, map<Name, Link>> {
    map n | n in ends :: WithLink(ends[n], n, spec, v)
  }

  /** Every edge is one registered link object, stored at both of its ends. */
  ghost predicate Wiring(ends: map<Name, map<Name, Link>>, links: map<Name, Link>, net: Net) {
    && ends.Keys == net.wire.Keys
    && (forall n {:trigger ends[n]} :: n in ends ==> ends[n].Keys == net.wire[n].Keys)
    && (forall a, b {:trigger Edge(net, a, b)} :: Edge(net, a, b) ==>
          net.wire[a][b] in links && ends[a][b] == links[net.wire[a][b]])
  }

  method StoreBothEnds(nodes: map<Name, Node>, spec: LinkSpec, v: Link)
    requires forall n :: n in nodes ==> nodes[n].nodeName == n
    requires spec.source in nodes && spec.destination in nodes
    modifies nodes.Values
    ensures EndsOf(nodes) == Attached(old(EndsOf(nodes)), spec, v)
  {
    var srcGraph, dstGraph := nodes[spec.source], nodes[spec.destination];
    srcGraph.links := srcGraph.links[spec.destination := v];
    dstGraph.links := dstGraph.links[spec.source := v];
  }

  lemma AttachedKeys(before: map<Name, Link>, net: Net, n: Name, spec: LinkSpec, v: Link)
    requires n in net.wire && before.Keys == net.wire[n].Keys
    requires spec.source in net.wire && spec.destination in net.wire
    ensures WithLink(before, n, spec, v).Keys == AddLink(net, v.linkName, spec).wire[n].Keys
  {
    forall b ensures b in WithLink(before, n, spec, v) <==> b in AddLink(net, v.linkName, spec).wire[n] {
      AddedEdges(net, v.linkName, spec, n, b);
      assert Edge(net, n, b) <==> b in net.wire[n];
    }
  }

  /** A new link stored at both of its ends, in place of an older one if there is one, keeps that so. */
  lemma AttachedWiring(ends: map<Name, map<Name, Link>>, links: map<Name, Link>, net: Net, spec: LinkSpec, v: Link)
    requires Wiring(ends, links, net) && v.linkName !in links
    requires spec.source in net.wire && spec.destination in net.wire
    ensures Wiring(Attached(ends, spec, v), links[v.linkName := v], AddLink(net, v.linkName, spec))
  {
    var after, more, net' := Attached(ends, spec, v), links[v.linkName := v], AddLink(net, v.linkName, spec);
    forall n | n in after ensures after[n].Keys == net'.wire[n].Keys {
      AttachedKeys(ends[n], net, n, spec, v);
    }
    forall a, b | Edge(net', a, b) ensures net'.wire[a][b] in more && after[a][b] == more[net'.wire[a][b]] {
      AddedEdges(net, v.linkName, spec, a, b);
    }
  }

  lemma ValidIsWiring(nodes: map<Name, Node>, links: map<Name, Link>, net: Net)
    requires Valid(nodes, links, net)
    ensures Wiring(EndsOf(nodes), links, net) && Named(nodes)
  {
    forall n | n in nodes ensures NodeFits(nodes, net, n) {
    }
    forall a, b | Edge(net, a, b)
      ensures net.wire[a][b] in links && EndsOf(nodes)[a][b] == links[net.wire[a][b]]
    {
      assert Shared(nodes, links, net, a, b);
    }
  }

  /** Names identify the nodes and their resources. */
  ghost predicate Named(nodes: map<Name, Node>) {
    forall n :: n in nodes ==> nodes[n].nodeName == n && nodes[n].resources.owner == n
  }

  lemma WiringIsValid(nodes: map<Name, Node>, links: map<Name, Link>, net: Net)
    requires Wiring(EndsOf(nodes), links, net) && Named(nodes) && Wired(net) && links.Keys == net.latency.Keys
    requires forall l {:trigger LinkFits(links, net, l)} :: l in links ==> LinkFits(links, net, l)
    ensures Valid(nodes, links, net)
  {
    forall n | n in nodes ensures NodeFits(nodes, net, n) {
      assert EndsOf(nodes)[n] == nodes[n].links;
    }
    forall a, b | Edge(net, a, b) ensures Shared(nodes, links, net, a, b) {
      assert EndsOf(nodes)[a] == nodes[a].links;
    }
  }

  lemma NewLinkHolds(links: map<Name, Link>, bw: map<Name, real>, v: Link)
    requires LinksHold(links, bw) && v.linkName !in links
    ensures LinksHold(links[v.linkName := v], bw[v.linkName := v.availableBandwidth])
  {
    var more, after := links[v.linkName := v], bw[v.linkName := v.availableBandwidth];
    forall l | l in more ensures LinkHolds(more, after, l) {
      assert l != v.linkName ==> LinkHolds(links, bw, l);
    }
  }

  lemma NewLinkFits(nodes: map<Name, Node>, links: map<Name, Link>, net: Net, spec: LinkSpec, v: Link)
    requires Valid(nodes, links, net) && v.linkName !in links && v.latency == spec.delay
    requires spec.source in net.wire && spec.destination in net.wire
    ensures var more, net' := links[v.linkName := v], AddLink(net, v.linkName, spec);
            && more.Keys == net'.latency.Keys
            && forall l {:trigger LinkFits(more, net', l)} :: l in more ==> LinkFits(more, net', l)
  {
    var more := links[v.linkName := v];
    forall l | l in more ensures LinkFits(more, AddLink(net, v.linkName, spec), l) {
      assert l != v.linkName ==> LinkFits(links, net, l);
    }
  }

  /** Makes the link object, at full capacity, and attaches it. */
  method BuildLink(nodes: map<Name, Node>, ghost links: map<Name, Link>, ghost net: Net, linkName: Name,
                   spec: LinkSpec, ghost bw: map<Name, real>)
    returns (v: Link)
    requires Valid(nodes, links, net) && LinksHold(links, bw) && linkName !in links
    requires spec.source in nodes && spec.destination in nodes && Wired(AddLink(net, linkName, spec))
    modifies nodes.Values
    ensures fresh(v) && Valid(nodes, links[linkName := v], AddLink(net, linkName, spec))
    ensures LinksHold(links[linkName := v], bw[linkName := spec.capacity])
  {
    v := new Link(linkName, spec.delay, spec.capacity);
    NewLinkHolds(links, bw, v);
    AttachLink(nodes, links, net, spec, v);
  }

  /** Stores the new link object at both ends; every edge still is one object seen from both sides. */
  method AttachLink(nodes: map<Name, Node>, ghost links: map<Name, Link>, ghost net: Net, spec: LinkSpec, v: Link)
    requires Valid(nodes, links, net) && v.linkName !in links && v.latency == spec.delay
    requires spec.source in nodes && spec.destination in nodes && Wired(AddLink(net, v.linkName, spec))
    modifies nodes.Values
    ensures Valid(nodes, links[v.linkName := v], AddLink(net, v.linkName, spec))
  {
    ValidIsWiring(nodes, links, net);
    NewLinkFits(nodes, links, net, spec, v);
    AttachedWiring(EndsOf(nodes), links, net, spec, v);
    StoreBothEnds(nodes, spec, v);
    WiringIsValid(nodes, links[v.linkName := v], AddLink(net, v.linkName, spec));
  }
}
