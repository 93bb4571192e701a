/**
  What the controller reports after a placement: how many RUs it counts as allocated and what is left on
  the links; and what those numbers mean.
 */
module Report {
  import opened Graphs
  import opened Chains
  import opened Cluster
  import opened Topology
  import opened Dsg8
  import opened Ledger
  import opened Outcomes
  import opened Placement
  import SplitsPlacer

  datatype Status = Status(allocatedRUs: int, remainingBandwidth: map<Name, real>)

  predicate Unplaced(f: Fields) {
    f.cuNode == NO_NAME || f.duNode == NO_NAME
  }

  function CountUnplaced(fields: seq<Fields>): nat {
    if fields == [] then 0
    else CountUnplaced(fields[..|fields|-1]) +
         (if Unplaced(fields[|fields|-1]) then 1 else 0)
  }

  /** The positions at which the CU or the DU is missing. */
  ghost function Missing(fields: seq<Fields>): set<nat> {
    set i: nat | i < |fields| && (fields[i].cuNode == NO_NAME || fields[i].duNode == NO_NAME)
  }

  lemma {:induction false} CountIsMissing(fields: seq<Fields>)
    ensures CountUnplaced(fields) == |Missing(fields)|
    decreases |fields|
  {
    if fields == [] {
      assert Missing(fields) == {};
    } else {
      var k := |fields| - 1;
      CountIsMissing(fields[..k]);
      if Unplaced(fields[k]) {
        assert Missing(fields) == Missing(fields[..k]) + {k};
      } else {
        assert Missing(fields) == Missing(fields[..k]);
      }
    }
  }

  /** The controller's count of RUs that have no chain. */
  method NotAllocated(rus: seq<ChainPosition>, ghost fields: seq<Fields>) returns (count: nat)
    requires fields == AllFields(rus)
    ensures count == CountUnplaced(fields)
    ensures count == |set i: nat | i < |rus| && (rus[i].cuNode == NO_NAME || rus[i].duNode == NO_NAME)|
  {
    count := 0;
    for i := 0 to |rus|
      invariant count == CountUnplaced(fields[..i])
    {
      assert fields[..i+1][..i] == fields[..i];
      if rus[i].duNode == NO_NAME || rus[i].cuNode == NO_NAME {
        count := count + 1;
      }
    }
    assert fields[..|rus|] == fields;
    CountIsMissing(fields);
    assert Missing(fields) == set i: nat | i < |rus| && (rus[i].cuNode == NO_NAME || rus[i].duNode == NO_NAME);
  }

  // ---- what the numbers mean ----

  /** How many of the first `k` RUs were skipped although they came with a chain, and still have it. */
  function HeldOver(before: seq<Fields>, events: seq<Event>, k: nat): nat
    requires k <= |events| == |before|
  {
    if k == 0 then 0
    else HeldOver(before, events, k - 1) + if events[k-1].Skipped? && !Unplaced(before[k-1]) then 1 else 0
  }

  lemma PlacedIsNamed(c: Setup, s: Stock, ru: Name, path: Path, du: nat, before: Fields)
    requires Wired(c.net) && Placeable(c, s, ru, path, du)
    ensures !Unplaced(Filled(Placed(path, du), before))
  {
    assert path[1] in c.net.wire && path[du] in c.net.wire;
  }

  /** After its event an RU is without a chain exactly if it was skipped and came without one. */
  lemma UnplacedIff(c: Setup, s: Stock, ru: Name, e: Event, before: Fields)
    requires Wired(c.net) && Sound(c, s, ru, e)
    ensures Unplaced(Filled(e, before)) <==> e.Skipped? && Unplaced(before)
  {
    match e {
      case Skipped =>
      case Placed(path, du) => PlacedIsNamed(c, s, ru, path, du, before);
    }
  }

  lemma CountSnoc(fields: seq<Fields>, events: seq<Event>, k: nat)
    requires k < |fields| == |events|
    ensures CountUnplaced(fields[..k+1]) == CountUnplaced(fields[..k]) + if Unplaced(fields[k]) then 1 else 0
    ensures PlacedCount(events[..k+1]) == PlacedCount(events[..k]) + if events[k].Placed? then 1 else 0
  {
    assert fields[..k+1][..k] == fields[..k] && events[..k+1][..k] == events[..k];
  }

  /** Every RU ends without a chain, or was placed, or kept the chain it came with. */
  lemma {:induction false} CountsAdd(c: Setup, s: Stock, rus: seq<Name>, events: seq<Event>, before: seq<Fields>,
                                     k: nat)
    requires Wired(c.net) && Run(c, s, rus, events) && |events| == |before| && k <= |events|
    ensures k == CountUnplaced(FieldsAfter(before, events)[..k]) + PlacedCount(events[..k]) +
                 HeldOver(before, events, k)
    decreases k
  {
    if k == 0 {
    } else {
      CountsAdd(c, s, rus, events, before, k - 1);
      CountSnoc(FieldsAfter(before, events), events, k - 1);
      RunStep(c, s, rus, events, k - 1);
      UnplacedIff(c, At(c, s, events, k - 1), rus[k-1], events[k-1], before[k-1]);
    }
  }

  /** No RU is counted without having been placed exactly if none that was skipped came with a chain. */
  lemma {:induction false} NoneHeldOverIff(before: seq<Fields>, events: seq<Event>, k: nat)
    requires k <= |events| == |before|
    ensures HeldOver(before, events, k) == 0 <==>
              forall i :: 0 <= i < k && events[i].Skipped? ==> Unplaced(before[i])
    decreases k
  {
    if k == 0 {
    } else {
      NoneHeldOverIff(before, events, k - 1);
    }
  }

  /**
    How a placement may have come to an end, and what the status then says; there is none after a panic.
   */
  ghost predicate Reports(c: Setup, names: seq<Name>, s: Stock, before: seq<Fields>, outcome: Outcome,
                          events: seq<Event>, status: Status)
  {
    && |before| == |names|
    && match outcome
       case ReservationFailed(k) =>
         && StopsAt(s, c.request, names, k)
         && status == Status(|before| - CountUnplaced(before), s.bw)
       case Completed =>
         && RanUpTo(c, names, s, events, |names|)
         && status.allocatedRUs == PlacedCount(events) + HeldOver(before, events, |events|)
         && Remains(c, s, events, status.remainingBandwidth)
       case CorePanic(k) => k < |names| && names[k] == c.root && RanUpTo(c, names, s, events, k)
       case NoDuPanic(k) =>
         && k < |names| && RanUpTo(c, names, s, events, k)
         && exists path :: Strands(c, StockAfter(c, names, s, events), names[k], path)
  }

  /** Each link has its initial bandwidth less what the chains placed across it use. */
  ghost predicate Remains(c: Setup, s: Stock, events: seq<Event>, bw: map<Name, real>) {
    && bw.Keys == s.bw.Keys
    && forall l :: l in s.bw ==> bw[l] == s.bw[l] - BandwidthUsed(c, events, l, |events|)
  }

  lemma CompletedRemains(c: Setup, names: seq<Name>, s: Stock, events: seq<Event>)
    requires RanUpTo(c, names, s, events, |names|)
    ensures Remains(c, s, events, StockAfter(c, names, s, events).bw)
  {
    ReserveKeys(s, c.request, names);
    BandwidthConserved(c, Reserve(s, c.request, names), names, events, |names|);
  }

  /** The numbers that the controller takes from the fields and the links are those of the report. */
  lemma FinishedReports(c: Setup, names: seq<Name>, s: Stock, before: seq<Fields>, outcome: Outcome,
                        events: seq<Event>, after: seq<Fields>, left: Stock, status: Status)
    requires Wired(c.net) && Finished(c, names, s, before, outcome, events, after, left)
    requires status == Status(|names| - CountUnplaced(after), left.bw)
    ensures Reports(c, names, s, before, outcome, events, status)
    ensures outcome.Completed? ==> after == FieldsAfter(before, events)
  {
    match outcome {
      case ReservationFailed(k) => ReserveKeys(s, c.request, names[..k+1]);
      case Completed =>
        CompletedRemains(c, names, s, events);
        CountsAdd(c, Reserve(s, c.request, names), names, events, before, |names|);
        assert after[..|names|] == after && events[..|names|] == events;
      case _ =>
    }
  }

  /**
    The reported count is the number of chains placed exactly if no RU that was skipped came with a chain;
    one that did is counted again.
   */
  lemma ReportedIsPlacedIff(c: Setup, names: seq<Name>, s: Stock, before: seq<Fields>, events: seq<Event>,
                            status: Status)
    requires Reports(c, names, s, before, Completed, events, status)
    ensures status.allocatedRUs == PlacedCount(events) <==>
              forall i :: 0 <= i < |events| && events[i].Skipped? ==> Unplaced(before[i])
  {
    NoneHeldOverIff(before, events, |events|);
  }

  /** In particular, if every RU comes without a chain the reported count is the number of chains placed. */
  lemma FreshReportedIsPlaced(c: Setup, names: seq<Name>, s: Stock, before: seq<Fields>, events: seq<Event>,
                              status: Status)
    requires Reports(c, names, s, before, Completed, events, status)
    requires forall i :: 0 <= i < |before| ==> Unplaced(before[i])
    ensures status.allocatedRUs == PlacedCount(events)
  {
    ReportedIsPlacedIff(c, names, s, before, events, status);
  }

  /** The RU is as it came if it was skipped; if it was placed, its fields are those of its chain. */
  ghost predicate LeftAs(ru: ChainPosition, before: Fields, e: Event)
    reads ru
  {
    match e
    case Skipped =>
      && ru.cuNode == before.cuNode && ru.duNode == before.duNode
      && ru.path == before.path && ru.disaggregation == before.disaggregation
    case Placed(path, du) =>
      && 1 < |path| && du < |path|
      && ru.cuNode == path[1] && ru.duNode == path[du] && ru.path == path && ru.disaggregation == "1"
  }

  lemma CompletedFields(c: Setup, s: Stock, rus: seq<ChainPosition>, before: seq<Fields>, events: seq<Event>)
    requires |before| == |rus| && RanUpTo(c, NamesOf(rus), s, events, |rus|)
    requires AllFields(rus) == FieldsAfter(before, events)
    ensures forall i :: 0 <= i < |rus| ==> LeftAs(rus[i], before[i], events[i])
  {
    forall i | 0 <= i < |rus| ensures LeftAs(rus[i], before[i], events[i]) {
      RunStep(c, Reserve(s, c.request, NamesOf(rus)), NamesOf(rus), events, i);
      assert FieldsOf(rus[i]) == AllFields(rus)[i];
    }
  }

  /** The amounts on the objects of a placement, as values. */
  ghost function Amounts(p: PlacementBFS): Stock
    reads ResourcesOf(p.nodes), p.remainingBandwidth.Values
  {
    Stock(MemoryOf(p.nodes), CpuOf(p.nodes), BandwidthOf(p.remainingBandwidth))
  }

  /**
    Conservation over a whole placement, on the objects: each link has lost what the chains placed
    across it were granted, and each node one request for every RU, CU and DU it took.
   */
  lemma ObjectsSettled(p: PlacementBFS, c: Setup, names: seq<Name>, s: Stock, events: seq<Event>, l: Name, n: Name)
    requires RanUpTo(c, names, s, events, |events|) && p.Holding(StockAfter(c, names, s, events))
    ensures Settled(c, s, names, events, Amounts(p), l, n)
  {
    HeldAmounts(p.nodes, p.remainingBandwidth, p.net, StockAfter(c, names, s, events));
    RunSettles(c, s, names, events, Reserve(s, c.request, names), l, n);
  }

  lemma ObjectsSolvent(p: PlacementBFS, c: Setup, names: seq<Name>, s: Stock, events: seq<Event>, n: Name)
    requires RanUpTo(c, names, s, events, |events|) && p.Holding(StockAfter(c, names, s, events))
    requires Wired(c.net) && Solvent(s.bw) && Covered(s, n) && n in s.mem && n in s.cpu
    ensures Solvent(Amounts(p).bw) && Covered(Amounts(p), n)
  {
    HeldAmounts(p.nodes, p.remainingBandwidth, p.net, StockAfter(c, names, s, events));
    RunStaysSolvent(c, s, names, events, Reserve(s, c.request, names), n);
  }

  lemma HeldIsWired(p: PlacementBFS, s: Stock)
    requires p.Holding(s)
    ensures Wired(p.net) && BandwidthOf(p.remainingBandwidth) == s.bw
  {
    HeldAmounts(p.nodes, p.remainingBandwidth, p.net, s);
  }

  /** Counts and collects for the status, once the placement has ended. */
  method Collect(topologyGraph: PlacementBFS, rus: seq<ChainPosition>, ghost after: seq<Fields>, ghost left: Stock)
    returns (status: Status)
    requires topologyGraph.Holding(left) && after == AllFields(rus)
    ensures status == Status(|rus| - CountUnplaced(after), left.bw) && after == AllFields(rus)
  {
    HeldIsWired(topologyGraph, left);
    var links := topologyGraph.remainingBandwidth;
    var remaining := map l | l in links :: links[l].availableBandwidth;
    var notAllocated := NotAllocated(rus, after);
    status := Status(|rus| - notAllocated, remaining);
  }

  /**
    The controller's placement step: place, then count and collect for the status.  The panics end the
    process before there is a status.
   */
  method PlaceAndReport(topologyGraph: PlacementBFS, rus: seq<ChainPosition>, ghost stock: Stock)
    returns (outcome: Outcome, status: Status, ghost events: seq<Event>)
    requires DSG8_KEY in topologyGraph.disaggregations && topologyGraph.root in topologyGraph.nodes
    requires topologyGraph.Holding(stock)
    requires Distinct(rus) && forall ru :: ru in NamesOf(rus) ==> ru in topologyGraph.nodes
    modifies ResourcesOf(topologyGraph.nodes), topologyGraph.remainingBandwidth.Values, rus
    ensures Reports(topologyGraph.Fixed(), NamesOf(rus), stock, old(AllFields(rus)), outcome, events, status)
    ensures outcome.Completed? ==> AllFields(rus) == FieldsAfter(old(AllFields(rus)), events)
    ensures outcome.Completed? ==>
              |events| == |rus| && forall i :: 0 <= i < |rus| ==> LeftAs(rus[i], old(AllFields(rus))[i], events[i])
  {
    ghost var before := AllFields(rus);
    HeldIsWired(topologyGraph, stock);
    ghost var left;
    outcome, events, left := topologyGraph.Place(rus, stock);
    ghost var after := AllFields(rus);
    status := Collect(topologyGraph, rus, after, left);
    FinishedReports(topologyGraph.Fixed(), NamesOf(rus), stock, before, outcome, events, after, left, status);
    if outcome.Completed? {
      CompletedFields(topologyGraph.Fixed(), stock, rus, before, events);
    }
  }

  /** What a placement on this topology works with. */
  ghost predicate SetUpFor(topology: TopologySpec, disaggregations: map<string, Requirements>, request: Request,
                           c: Setup)
  {
    && c.root in topology.nodes && topology.nodes[c.root]
    && Wired(c.net) && Describes(topology, topology.links.Keys, c.net)
    && c.request == request && "1" in disaggregations && c.reqs == disaggregations["1"]
  }

  /** The same from the topology on: the objects are built, used for one placement, and forgotten. */
  method PlaceRequest(topology: TopologySpec, disaggregations: map<string, Requirements>,
                      allocatable: map<Name, Allocatable>, requestedResources: Request, rus: seq<ChainPosition>)
    returns (outcome: Outcome, status: Status, ghost c: Setup, ghost events: seq<Event>)
    requires WellFormed(topology, allocatable) && DSG8_KEY in disaggregations
    requires Distinct(rus) && forall ru :: ru in NamesOf(rus) ==> ru in topology.nodes
    modifies rus
    ensures SetUpFor(topology, disaggregations, requestedResources, c)
    ensures Reports(c, NamesOf(rus), InitialStock(topology, allocatable), old(AllFields(rus)), outcome, events, status)
    ensures outcome.Completed? ==> AllFields(rus) == FieldsAfter(old(AllFields(rus)), events)
    ensures outcome.Completed? ==>
              |events| == |rus| && forall i :: 0 <= i < |rus| ==> LeftAs(rus[i], old(AllFields(rus))[i], events[i])
  {
    var topologyGraph := NewPlacementBFS(topology, disaggregations, allocatable, requestedResources);
    c := topologyGraph.Fixed();
    HeldIsWired(topologyGraph, InitialStock(topology, allocatable));
    outcome, status, events := PlaceAndReport(topologyGraph, rus, InitialStock(topology, allocatable));
  }

  // ---- what the controller stores and acts on ----

  function RuOf(splitName: Name, ruNode: Name, f: Fields): SplitsPlacer.Ru {
    SplitsPlacer.Ru(splitName, ruNode, f.cuNode, f.duNode)
  }

  /** The fields of a stored RU, as the placement takes them up. */
  function FieldsIn(ru: SplitsPlacer.Ru): Fields {
    Fields(ru.cuNode, ru.duNode, [], "")
  }

  ghost function RuNodes(rus: seq<SplitsPlacer.Ru>): seq<Name> {
    seq(|rus|, i requires 0 <= i < |rus| => rus[i].ruNode)
  }

  ghost function StoredFields(rus: seq<SplitsPlacer.Ru>): seq<Fields> {
    seq(|rus|, i requires 0 <= i < |rus| => FieldsIn(rus[i]))
  }

  /** The stored RUs with the fields that the events leave them with. */
  ghost function PlacedRus(rus: seq<SplitsPlacer.Ru>, events: seq<Event>): seq<SplitsPlacer.Ru> {
    var after := FieldsAfter(StoredFields(rus), events);
    seq(|rus|, i requires 0 <= i < |rus| => RuOf(rus[i].splitName, rus[i].ruNode, after[i]))
  }

  /** A completed placement fills in whole chains or leaves RUs as they were, as the controller relies on. */
  lemma PlacementFillsIn(c: Setup, s: Stock, rus: seq<SplitsPlacer.Ru>, events: seq<Event>)
    requires Wired(c.net) && RanUpTo(c, RuNodes(rus), s, events, |rus|)
    ensures SplitsPlacer.PlacedFrom(rus, PlacedRus(rus, events))
  {
    var names, now := RuNodes(rus), PlacedRus(rus, events);
    var reserved := Reserve(s, c.request, names);
    forall i | 0 <= i < |now| ensures now[i] == rus[i] || SplitsPlacer.FilledIn(rus[i], now[i]) {
      RunStep(c, reserved, names, events, i);
      match events[i] {
        case Skipped =>
        case Placed(path, du) => PlacedIsNamed(c, At(c, reserved, events, i), names[i], path, du, FieldsIn(rus[i]));
      }
    }
  }

  /** New objects for the stored RUs. */
  method Objects(rus: seq<SplitsPlacer.Ru>) returns (objects: seq<ChainPosition>)
    ensures |objects| == |rus| && Distinct(objects) && fresh(objects)
    ensures AllFields(objects) == StoredFields(rus) && NamesOf(objects) == RuNodes(rus)
  {
    objects := [];
    for i := 0 to |rus|
      invariant |objects| == i && Distinct(objects) && fresh(objects)
      invariant forall k :: 0 <= k < i ==>
                  objects[k].ruNode == rus[k].ruNode && FieldsOf(objects[k]) == FieldsIn(rus[k])
    {
      var ru := new ChainPosition(rus[i].splitName, rus[i].ruNode);
      ru.cuNode, ru.duNode := rus[i].cuNode, rus[i].duNode;
      objects := objects + [ru];
    }
  }

  /** The RUs as they are to be stored, read off the objects. */
  method ReadBack(rus: seq<SplitsPlacer.Ru>, objects: seq<ChainPosition>, ghost after: seq<Fields>)
    returns (now: seq<SplitsPlacer.Ru>)
    requires |objects| == |rus| && after == AllFields(objects)
    ensures |now| == |rus|
    ensures forall i :: 0 <= i < |rus| ==> now[i] == RuOf(rus[i].splitName, rus[i].ruNode, after[i])
  {
    now := [];
    for i := 0 to |rus|
      invariant |now| == i
      invariant forall k :: 0 <= k < i ==> now[k] == RuOf(rus[k].splitName, rus[k].ruNode, after[k])
    {
      now := now + [SplitsPlacer.Ru(rus[i].splitName, rus[i].ruNode, objects[i].cuNode, objects[i].duNode)];
    }
  }

  /** A stored RU after its event: as it was, or with the CU and the DU of its chain. */
  ghost predicate StoredAs(before: SplitsPlacer.Ru, after: SplitsPlacer.Ru, e: Event) {
    && after.splitName == before.splitName && after.ruNode == before.ruNode
    && match e
       case Skipped => after.cuNode == before.cuNode && after.duNode == before.duNode
       case Placed(path, du) =>
         1 < |path| && du < |path| && after.cuNode == path[1] && after.duNode == path[du]
  }

  ghost predicate AllStoredAs(before: seq<SplitsPlacer.Ru>, after: seq<SplitsPlacer.Ru>, events: seq<Event>) {
    |before| == |after| == |events| && forall i :: 0 <= i < |before| ==> StoredAs(before[i], after[i], events[i])
  }

  lemma PlacedRusAre(c: Setup, s: Stock, rus: seq<SplitsPlacer.Ru>, events: seq<Event>)
    requires RanUpTo(c, RuNodes(rus), s, events, |rus|)
    ensures AllStoredAs(rus, PlacedRus(rus, events), events)
  {
    forall i | 0 <= i < |rus| ensures StoredAs(rus[i], PlacedRus(rus, events)[i], events[i]) {
      RunStep(c, Reserve(s, c.request, RuNodes(rus)), RuNodes(rus), events, i);
    }
  }

  /** The run comes to an RU at which the placement panics. */
  ghost predicate Panics(c: Setup, names: seq<Name>, s: Stock, events: seq<Event>) {
    && |events| < |names| && RanUpTo(c, names, s, events, |events|)
    && (names[|events|] == c.root || exists path :: Strands(c, StockAfter(c, names, s, events), names[|events|], path))
  }

  /** Every way in which placing the stored RUs may come out. */
  ghost predicate ComesOut(c: Setup, s: Stock, rus: seq<SplitsPlacer.Ru>, placing: SplitsPlacer.Placing,
                           events: seq<Event>)
  {
    match placing
    case Chains(now) => RanUpTo(c, RuNodes(rus), s, events, |rus|) && AllStoredAs(rus, now, events)
    case Failure => !ReservedUpTo(s, c.request, RuNodes(rus), |rus|)
    case Panic => Panics(c, RuNodes(rus), s, events)
  }

  lemma ReportedComesOut(c: Setup, s: Stock, rus: seq<SplitsPlacer.Ru>, outcome: Outcome, events: seq<Event>,
                         status: Status)
    requires Reports(c, RuNodes(rus), s, StoredFields(rus), outcome, events, status)
    ensures outcome.ReservationFailed? ==> ComesOut(c, s, rus, SplitsPlacer.Failure, events)
    ensures outcome.CorePanic? || outcome.NoDuPanic? ==> ComesOut(c, s, rus, SplitsPlacer.Panic, events)
    ensures outcome.Completed? ==> ComesOut(c, s, rus, SplitsPlacer.Chains(PlacedRus(rus, events)), events)
  {
    if outcome.Completed? {
      PlacedRusAre(c, s, rus, events);
    }
  }

  /** What the stored request comes to when it is placed on a topology. */
  method PlaceStored(topology: TopologySpec, disaggregations: map<string, Requirements>,
                     allocatable: map<Name, Allocatable>, requestedResources: Request, rus: seq<SplitsPlacer.Ru>)
    returns (placing: SplitsPlacer.Placing, ghost c: Setup, ghost events: seq<Event>)
    requires WellFormed(topology, allocatable) && DSG8_KEY in disaggregations
    requires forall i :: 0 <= i < |rus| ==> rus[i].ruNode in topology.nodes
    ensures SetUpFor(topology, disaggregations, requestedResources, c)
    ensures ComesOut(c, InitialStock(topology, allocatable), rus, placing, events)
    ensures placing.Chains? ==> SplitsPlacer.PlacedFrom(rus, placing.rus)
  {
    var objects := Objects(rus);
    var outcome, status;
    outcome, status, c, events := PlaceRequest(topology, disaggregations, allocatable, requestedResources, objects);
    ReportedComesOut(c, InitialStock(topology, allocatable), rus, outcome, events, status);
    match outcome {
      case Completed =>
        var now := ReadBack(rus, objects, AllFields(objects));
        PlacementFillsIn(c, InitialStock(topology, allocatable), rus, events);
        assert now == PlacedRus(rus, events);
        placing := SplitsPlacer.Chains(now);
      case ReservationFailed(_) => placing := SplitsPlacer.Failure;
      case CorePanic(_) => placing := SplitsPlacer.Panic;
      case NoDuPanic(_) => placing := SplitsPlacer.Panic;
    }
  }

  /** The request has been handled: its RUs are stored as a legal run leaves them, and made Splits of. */
  ghost predicate HandledBy(c: Setup, s: Stock, before: SplitsPlacer.Store, after: SplitsPlacer.Store,
                            events: seq<Event>)
    requires before.placer.Some?
  {
    var rus, ip := before.placer.value.rus, before.placer.value.coreIP;
    && after.placer.Some? && RanUpTo(c, RuNodes(rus), s, events, |rus|)
    && AllStoredAs(rus, after.placer.value.rus, events)
    && (SplitsPlacer.Agrees(after.splits, ip, after.placer.value.rus) <==>
          SplitsPlacer.NoConflict(before.splits, ip, after.placer.value.rus))
  }

  lemma SyncedIsHandled(c: Setup, s: Stock, before: SplitsPlacer.Store, pass: SplitsPlacer.Pass, events: seq<Event>)
    requires before.placer.Some? && pass.Synced?
    requires ComesOut(c, s, before.placer.value.rus, SplitsPlacer.Chains(pass.rus), events)
    ensures HandledBy(c, s, before, SplitsPlacer.Apply(before, pass), events)
  {
    SplitsPlacer.AgreesIffNoConflict(before.splits, before.placer.value.coreIP, pass.rus);
  }

  /** How a pass over an open request with a topology comes out if no call fails. */
  ghost predicate HandledForSure(c: Setup, s: Stock, before: SplitsPlacer.Store, after: SplitsPlacer.Store,
                                 events: seq<Event>)
    requires before.placer.Some?
  {
    var names := RuNodes(before.placer.value.rus);
    || (HandledBy(c, s, before, after, events) && after.placer.value.state == SplitsPlacer.Finished)
    || (SplitsPlacer.Failed(before, after) && !ReservedUpTo(s, c.request, names, |names|))
    || (after == before && Panics(c, names, s, events))
  }

  lemma HealthyIsHandled(c: Setup, s: Stock, before: SplitsPlacer.Store, placing: SplitsPlacer.Placing,
                         failed: bool, pass: SplitsPlacer.Pass, events: seq<Event>)
    requires SplitsPlacer.Open(before) && before.placer.value.hasTopology
    requires ComesOut(c, s, before.placer.value.rus, placing, events)
    requires SplitsPlacer.Undisturbed(before.placer, placing, failed, pass)
    ensures HandledForSure(c, s, before, SplitsPlacer.Apply(before, pass), events)
  {
    if placing.Chains? {
      SyncedIsHandled(c, s, before, pass, events);
    }
  }

  /**
    A reconcile pass with the placement inside.  If it completes on an open request with a topology, what it
    stores and makes Splits of is what a legal run of the placement leaves the RUs with; if no call fails it
    does complete, unless the reservations or the placement itself do not go through.
   */
  method ReconcileRequest(server: SplitsPlacer.ApiServer, topology: TopologySpec,
                          disaggregations: map<string, Requirements>, allocatable: map<Name, Allocatable>,
                          requestedResources: Request)
    returns (failed: bool, ghost pass: SplitsPlacer.Pass, ghost c: Setup, ghost events: seq<Event>)
    requires WellFormed(topology, allocatable) && DSG8_KEY in disaggregations
    requires server.placer.Some? ==>
               forall i :: 0 <= i < |server.placer.value.rus| ==> server.placer.value.rus[i].ruNode in topology.nodes
    modifies server
    ensures SplitsPlacer.Possible(old(server.Stored()), pass)
    ensures server.Stored() == SplitsPlacer.Apply(old(server.Stored()), pass)
    ensures !failed && SplitsPlacer.Open(old(server.Stored())) ==> pass.Synced?
    ensures SplitsPlacer.Open(old(server.Stored())) && old(server.placer).value.hasTopology ==>
              && SetUpFor(topology, disaggregations, requestedResources, c)
              && (pass.Synced? ==>
                    HandledBy(c, InitialStock(topology, allocatable), old(server.Stored()), server.Stored(), events))
              && (server.healthy ==>
                    HandledForSure(c, InitialStock(topology, allocatable), old(server.Stored()), server.Stored(),
                                   events))
  {
    ghost var before, s := server.Stored(), InitialStock(topology, allocatable);
    var placing := SplitsPlacer.Failure;
    c, events := *, [];
    if server.placer.Some? && server.placer.value.state == SplitsPlacer.Unset && server.placer.value.hasTopology {
      placing, c, events :=
        PlaceStored(topology, disaggregations, allocatable, requestedResources, server.placer.value.rus);
    }
    failed, pass := SplitsPlacer.Reconcile(server, placing);
    if SplitsPlacer.Open(before) && before.placer.value.hasTopology {
      if pass.Synced? {
        SyncedIsHandled(c, s, before, pass, events);
      }
      if server.healthy {
        HealthyIsHandled(c, s, before, placing, failed, pass, events);
      }
    }
  }
}
