/**
  The accounting of a whole placement.  A run is the list of what happened to each RU in turn, with
  the stock before and after; everything here holds of every run, whatever the iteration orders were.
 */
module Ledger {
  import opened Graphs
  import opened Chains
  import opened Dsg8
  import opened HarnessBfs
  import opened MultiPathSearch

  /** What stays fixed during a run. */
  datatype Setup = Setup(net: Net, root: Name, request: Request, reqs: Requirements)

  /** An RU is passed over, or its chain is placed on `path` with the DU at index `du`. */
  datatype Event = Skipped | Placed(path: Path, du: nat)

  /** A path the search may report: simple, from the core to the RU, at most one hop from shortest. */
  ghost predicate Eligible(c: Setup, ru: Name, path: Path) {
    NearShortest(Neighbours(c.net), c.root, ru, path)
  }

  ghost predicate Searched(c: Setup, ru: Name, found: seq<Path>) {
    var g := Neighbours(c.net);
    Result(g, c.root, ru, found) && Returns(g, c.root, ru, found)
  }

  /** Some search, for some order of neighbours, returns the path. */
  ghost predicate MayBeFound(c: Setup, ru: Name, path: Path) {
    exists found :: Searched(c, ru, found) && path in found
  }

  lemma FoundIsEligible(c: Setup, ru: Name, path: Path)
    requires MayBeFound(c, ru, path)
    ensures Eligible(c, ru, path)
  {
  }

  /** A path that validation may accept for the RU. */
  ghost predicate Acceptable(c: Setup, s: Stock, ru: Name, path: Path) {
    MayBeFound(c, ru, path) && Feasible(c.net, s, c.request, c.reqs, path)
  }

  /** An acceptable path without a DU: accepting it ends the placement in a panic. */
  ghost predicate Strands(c: Setup, s: Stock, ru: Name, path: Path) {
    Acceptable(c, s, ru, path) && !DuFound(s, c.request, path)
  }

  ghost predicate NoneFeasible(c: Setup, s: Stock, paths: seq<Path>) {
    forall p :: p in paths ==> !Feasible(c.net, s, c.request, c.reqs, p)
  }

  /** Some search returns nothing but infeasible paths. */
  ghost predicate MayBeRejected(c: Setup, s: Stock, ru: Name) {
    exists found :: Searched(c, ru, found) && NoneFeasible(c, s, found)
  }

  /** The chain's path was eligible and feasible, and the DU sits on its first interior node with room. */
  ghost predicate Placeable(c: Setup, s: Stock, ru: Name, path: Path, du: nat) {
    && Eligible(c, ru, path)
    && Feasible(c.net, s, c.request, c.reqs, path)
    && du == DuIndex(s, c.request, path)
    && 2 <= du < |path| - 1
  }

  ghost function After(c: Setup, s: Stock, e: Event): Stock {
    match e
    case Skipped => s
    case Placed(path, du) =>
      if 1 < |path| && du < |path| then AllocateChain(c.net, s, c.request, c.reqs, path, du) else s
  }

  /** All or nothing; and an RU is passed over only if none of the paths found would do. */
  ghost predicate Legal(c: Setup, s: Stock, ru: Name, e: Event) {
    match e
    case Skipped => ru != c.root && MayBeRejected(c, s, ru)
    case Placed(path, du) => Placeable(c, s, ru, path, du) && MayBeFound(c, ru, path)
  }

  /** The part of it that the accounting rests on. */
  ghost predicate Sound(c: Setup, s: Stock, ru: Name, e: Event) {
    e.Placed? ==> Placeable(c, s, ru, e.path, e.du)
  }

  /** The stock after the first `k` events. */
  ghost function At(c: Setup, s: Stock, events: seq<Event>, k: nat): Stock
    requires k <= |events|
  {
    if k == 0 then s else After(c, At(c, s, events, k - 1), events[k-1])
  }

  ghost predicate Run(c: Setup, s: Stock, rus: seq<Name>, events: seq<Event>) {
    |events| <= |rus| &&
    forall k: nat {:trigger LegalAt(c, s, rus, events, k)} :: k < |events| ==> LegalAt(c, s, rus, events, k)
  }

  ghost predicate LegalAt(c: Setup, s: Stock, rus: seq<Name>, events: seq<Event>, k: nat)
    requires k < |events| <= |rus|
  {
    Legal(c, At(c, s, events, k), rus[k], events[k])
  }

  ghost predicate InBounds(e: Event) {
    e.Placed? ==> 1 < |e.path| && e.du < |e.path|
  }

  lemma {:induction false} AtPrefix(c: Setup, s: Stock, events: seq<Event>, e: Event, k: nat)
    requires k <= |events|
    ensures At(c, s, events + [e], k) == At(c, s, events, k)
    decreases k
  {
    if k == 0 {
    } else {
      AtPrefix(c, s, events, e, k - 1);
    }
  }

  lemma LegalAtKept(c: Setup, s: Stock, rus: seq<Name>, events: seq<Event>, e: Event, k: nat)
    requires k < |events| < |rus| && LegalAt(c, s, rus, events, k)
    ensures LegalAt(c, s, rus, events + [e], k)
  {
    AtPrefix(c, s, events, e, k);
  }

  lemma LegalNext(c: Setup, s: Stock, rus: seq<Name>, events: seq<Event>, e: Event)
    requires |events| < |rus| && Legal(c, At(c, s, events, |events|), rus[|events|], e)
    ensures LegalAt(c, s, rus, events + [e], |events|)
    ensures At(c, s, events + [e], |events| + 1) == After(c, At(c, s, events, |events|), e)
  {
    AtPrefix(c, s, events, e, |events|);
  }

  lemma RunSnoc(c: Setup, s: Stock, rus: seq<Name>, events: seq<Event>, e: Event)
    requires Run(c, s, rus, events) && |events| < |rus| && LegalAt(c, s, rus, events + [e], |events|)
    ensures Run(c, s, rus, events + [e])
  {
    forall k: nat | k < |events + [e]| ensures LegalAt(c, s, rus, events + [e], k) {
      if k < |events| {
        assert LegalAt(c, s, rus, events, k);
        LegalAtKept(c, s, rus, events, e, k);
      }
    }
  }

  lemma RunStep(c: Setup, s: Stock, rus: seq<Name>, events: seq<Event>, k: nat)
    requires Run(c, s, rus, events) && k < |events|
    ensures Sound(c, At(c, s, events, k), rus[k], events[k]) && InBounds(events[k])
  {
    assert LegalAt(c, s, rus, events, k);
  }

  lemma {:induction false} KeysKept(c: Setup, s: Stock, events: seq<Event>, k: nat)
    requires k <= |events|
    ensures var t := At(c, s, events, k);
            t.bw.Keys == s.bw.Keys && t.mem.Keys == s.mem.Keys && t.cpu.Keys == s.cpu.Keys
    decreases k
  {
    if k == 0 {
    } else {
      KeysKept(c, s, events, k - 1);
    }
  }

  // ---- links ----

  ghost function ChainUsage(c: Setup, e: Event, l: Name): real {
    match e
    case Skipped => 0.0
    case Placed(path, du) => Usage(c.net, c.reqs, path, du, l, if path == [] then 0 else |path| - 1)
  }

  /** What the first `k` events took from link `l`. */
  ghost function BandwidthUsed(c: Setup, events: seq<Event>, l: Name, k: nat): real
    requires k <= |events|
  {
    if k == 0 then 0.0 else BandwidthUsed(c, events, l, k - 1) + ChainUsage(c, events[k-1], l)
  }

  lemma AfterBandwidth(c: Setup, s: Stock, e: Event)
    requires InBounds(e)
    ensures After(c, s, e).bw.Keys == s.bw.Keys
    ensures forall l :: l in s.bw ==> s.bw[l] - After(c, s, e).bw[l] == ChainUsage(c, e, l)
  {
  }

  /** Link by link, what is gone is what the placed chains crossing the link were granted. */
  lemma {:induction false} BandwidthConserved(c: Setup, s: Stock, rus: seq<Name>, events: seq<Event>, k: nat)
    requires Run(c, s, rus, events) && k <= |events|
    ensures At(c, s, events, k).bw.Keys == s.bw.Keys
    ensures forall l :: l in s.bw ==> s.bw[l] - At(c, s, events, k).bw[l] == BandwidthUsed(c, events, l, k)
    decreases k
  {
    if k == 0 {
    } else {
      BandwidthConserved(c, s, rus, events, k - 1);
      RunStep(c, s, rus, events, k - 1);
      AfterBandwidth(c, At(c, s, events, k - 1), events[k-1]);
    }
  }

  ghost predicate Solvent(bw: map<Name, real>) {
    forall l :: l in bw ==> bw[l] >= 0.0
  }

  lemma AfterSolvent(c: Setup, s: Stock, ru: Name, e: Event)
    requires Wired(c.net) && Sound(c, s, ru, e) && Solvent(s.bw)
    ensures Solvent(After(c, s, e).bw)
  {
    match e {
      case Skipped =>
      case Placed(path, du) => DebitedNonNegative(c.net, s.bw, c.reqs, path, du);
    }
  }

  lemma {:induction false} BandwidthNonNegative(c: Setup, s: Stock, rus: seq<Name>, events: seq<Event>, k: nat)
    requires Wired(c.net) && Run(c, s, rus, events) && k <= |events| && Solvent(s.bw)
    ensures Solvent(At(c, s, events, k).bw)
    decreases k
  {
    if k == 0 {
    } else {
      BandwidthNonNegative(c, s, rus, events, k - 1);
      RunStep(c, s, rus, events, k - 1);
      AfterSolvent(c, At(c, s, events, k - 1), rus[k-1], events[k-1]);
    }
  }

  // ---- the sum over all links ----

  ghost function Total(bw: map<Name, real>, names: seq<Name>): real {
    if names == [] then 0.0 else Left(bw, names[0]) + Total(bw, names[1..])
  }

  ghost function TotalUsage(net: Net, reqs: Requirements, path: Path, j: nat, names: seq<Name>, k: nat): real {
    if names == [] then 0.0
    else Usage(net, reqs, path, j, names[0], k) + TotalUsage(net, reqs, path, j, names[1..], k)
  }

  /** Backhaul once, midhaul up to the DU, fronthaul from there to the RU: the first `k` hops' demand. */
  function Demand(reqs: Requirements, j: nat, k: nat): real {
    if k == 0 then 0.0 else Demand(reqs, j, k - 1) + SegmentOf(reqs, k - 1, j).bandwidth
  }

  /** The demand of a chain of `k` hops with its DU at index `j`, in closed form. */
  function ChainDemand(reqs: Requirements, j: nat, k: nat): real {
    reqs.backhaul.bandwidth + (j - 1) as real * reqs.midhaul.bandwidth + (k - j) as real * reqs.fronthaul.bandwidth
  }

  lemma {:induction false} DemandIs(reqs: Requirements, j: nat, k: nat)
    requires 1 <= j <= k
    ensures Demand(reqs, j, k) == ChainDemand(reqs, j, k)
    decreases k
  {
    if j < k {
      DemandIs(reqs, j, k - 1);
      assert (k - j) as real == (k - 1 - j) as real + 1.0;
    } else if k > 1 {
      MidhaulDemand(reqs, j, k - 1);
    }
  }

  lemma {:induction false} MidhaulDemand(reqs: Requirements, j: nat, k: nat)
    requires 1 <= k <= j
    ensures Demand(reqs, j, k) == reqs.backhaul.bandwidth + (k - 1) as real * reqs.midhaul.bandwidth
    decreases k
  {
    if k == 1 {
    } else {
      MidhaulDemand(reqs, j, k - 1);
      assert (k - 1) as real == (k - 2) as real + 1.0;
    }
  }

  lemma {:induction false} TotalUsageStep(net: Net, reqs: Requirements, path: Path, j: nat, names: seq<Name>, k: nat)
    requires Distinct(names)
    ensures TotalUsage(net, reqs, path, j, names, k + 1) == TotalUsage(net, reqs, path, j, names, k) +
            if LinkAt(net, path, k) in names then SegmentOf(reqs, k, j).bandwidth else 0.0
    decreases |names|
  {
    if names == [] {
    } else {
      assert names == [names[0]] + names[1..];
      TotalUsageStep(net, reqs, path, j, names[1..], k);
    }
  }

  lemma {:induction false} TotalUsageNone(net: Net, reqs: Requirements, path: Path, j: nat, names: seq<Name>)
    ensures TotalUsage(net, reqs, path, j, names, 0) == 0.0
    decreases |names|
  {
    if names == [] {
    } else {
      TotalUsageNone(net, reqs, path, j, names[1..]);
    }
  }

  /** Summed over all links, a chain uses exactly what its hops demand. */
  lemma {:induction false} TotalUsageIsDemand(net: Net, reqs: Requirements, path: Path, j: nat, names: seq<Name>,
                                              k: nat)
    requires Distinct(names) && forall i: nat :: i < k ==> LinkAt(net, path, i) in names
    ensures TotalUsage(net, reqs, path, j, names, k) == Demand(reqs, j, k)
    decreases k
  {
    if k == 0 {
      TotalUsageNone(net, reqs, path, j, names);
    } else {
      TotalUsageIsDemand(net, reqs, path, j, names, k - 1);
      TotalUsageStep(net, reqs, path, j, names, k - 1);
    }
  }

  lemma {:induction false} TotalDebited(net: Net, bw: map<Name, real>, reqs: Requirements, path: Path, j: nat,
                                        names: seq<Name>)
    requires path != [] && forall n :: n in names ==> n in bw
    ensures Total(Debited(net, bw, reqs, path, j), names) ==
            Total(bw, names) - TotalUsage(net, reqs, path, j, names, |path| - 1)
    decreases |names|
  {
    if names == [] {
    } else {
      assert names == [names[0]] + names[1..];
      TotalDebited(net, bw, reqs, path, j, names[1..]);
    }
  }

  /** What one event's chain demands of the network as a whole. */
  ghost function EventDemand(c: Setup, e: Event): real {
    match e
    case Skipped => 0.0
    case Placed(path, du) => if path == [] then 0.0 else ChainDemand(c.reqs, du, |path| - 1)
  }

  ghost function RunDemand(c: Setup, events: seq<Event>, k: nat): real
    requires k <= |events|
  {
    if k == 0 then 0.0 else RunDemand(c, events, k - 1) + EventDemand(c, events[k-1])
  }

  /** `names` lists every link of the network once. */
  ghost predicate Lists(net: Net, names: seq<Name>) {
    Distinct(names) && forall l :: l in names <==> l in net.latency
  }

  lemma LinksListed(net: Net, path: Path, names: seq<Name>)
    requires Wired(net) && SimplePath(net, path) && Lists(net, names)
    ensures forall i: nat :: i < |path| - 1 ==> LinkAt(net, path, i) in names
  {
    forall i: nat | i < |path| - 1 ensures LinkAt(net, path, i) in names {
      StepIsEdge(net, path, i);
    }
  }

  lemma PlacedTotal(c: Setup, bw: map<Name, real>, path: Path, du: nat, names: seq<Name>)
    requires Wired(c.net) && SimplePath(c.net, path) && 1 <= du < |path| - 1
    requires Lists(c.net, names) && bw.Keys == c.net.latency.Keys
    ensures Total(bw, names) - Total(Debited(c.net, bw, c.reqs, path, du), names) == EventDemand(c, Placed(path, du))
  {
    LinksListed(c.net, path, names);
    TotalDebited(c.net, bw, c.reqs, path, du, names);
    TotalUsageIsDemand(c.net, c.reqs, path, du, names, |path| - 1);
    DemandIs(c.reqs, du, |path| - 1);
  }

  lemma AfterTotal(c: Setup, s: Stock, ru: Name, e: Event, names: seq<Name>)
    requires Wired(c.net) && Sound(c, s, ru, e)
    requires Lists(c.net, names) && s.bw.Keys == c.net.latency.Keys
    ensures Total(s.bw, names) - Total(After(c, s, e).bw, names) == EventDemand(c, e)
  {
    match e {
      case Skipped =>
      case Placed(path, du) => PlacedTotal(c, s.bw, path, du, names);
    }
  }

  /** What all links together have lost is what the placed chains demand, segment by segment. */
  lemma {:induction false} TotalConserved(c: Setup, s: Stock, rus: seq<Name>, events: seq<Event>, k: nat,
                                          names: seq<Name>)
    requires Wired(c.net) && Run(c, s, rus, events) && k <= |events|
    requires Lists(c.net, names) && s.bw.Keys == c.net.latency.Keys
    ensures Total(s.bw, names) - Total(At(c, s, events, k).bw, names) == RunDemand(c, events, k)
    decreases k
  {
    if k == 0 {
    } else {
      TotalConserved(c, s, rus, events, k - 1, names);
      KeysKept(c, s, events, k - 1);
      RunStep(c, s, rus, events, k - 1);
      AfterTotal(c, At(c, s, events, k - 1), rus[k-1], events[k-1], names);
    }
  }

  // ---- nodes ----

  /** The nodes that an event charges, the DU's first. */
  ghost function Charges(e: Event): seq<Name> {
    match e
    case Skipped => []
    case Placed(path, du) => if 1 < |path| && du < |path| then [path[du], path[1]] else []
  }

  /** An amount taken `n` times. */
  function Times(amount: int, n: nat): int {
    if n == 0 then 0 else Times(amount, n - 1) + amount
  }

  lemma {:induction false} TimesIsProduct(amount: int, n: nat)
    ensures Times(amount, n) == amount * n
    decreases n
  {
    if n == 0 {
    } else {
      TimesIsProduct(amount, n - 1);
      assert amount * n == amount * (n - 1) + amount;
    }
  }

  lemma {:induction false} TimesAdds(amount: int, a: nat, b: nat)
    ensures Times(amount, a + b) == Times(amount, a) + Times(amount, b)
    decreases b
  {
    if b == 0 {
    } else {
      TimesAdds(amount, a, b - 1);
    }
  }

  function Count(names: seq<Name>, n: Name): nat {
    if names == [] then 0
    else Count(names[..|names|-1], n) + if names[|names|-1] == n then 1 else 0
  }

  /** How many CUs and DUs the first `k` events put on node `n`. */
  ghost function PiecesOn(events: seq<Event>, n: Name, k: nat): nat
    requires k <= |events|
  {
    if k == 0 then 0 else PiecesOn(events, n, k - 1) + Count(Charges(events[k-1]), n)
  }

  /** Reserving: every RU's node is charged, in the order of the request. */
  ghost function Reserve(s: Stock, request: Request, rus: seq<Name>): Stock {
    if rus == [] then s else Charged(Reserve(s, request, rus[..|rus|-1]), rus[|rus|-1], request)
  }

  lemma {:induction false} ReserveKeys(s: Stock, request: Request, rus: seq<Name>)
    ensures var t := Reserve(s, request, rus);
            t.bw == s.bw && t.mem.Keys == s.mem.Keys && t.cpu.Keys == s.cpu.Keys
    decreases |rus|
  {
    if rus == [] {
    } else {
      ReserveKeys(s, request, rus[..|rus|-1]);
    }
  }

  /** Between the two stocks node `n` has lost the request `count` times. */
  ghost predicate Taken(request: Request, s: Stock, t: Stock, n: Name, count: nat) {
    && n in s.mem && n in t.mem && s.mem[n] - t.mem[n] == Times(request.mem, count)
    && n in s.cpu && n in t.cpu && s.cpu[n] - t.cpu[n] == Times(request.cpu, count)
  }

  lemma TakenAdds(request: Request, s: Stock, t: Stock, u: Stock, n: Name, a: nat, b: nat, sum: nat)
    requires Taken(request, s, t, n, a) && Taken(request, t, u, n, b) && sum == a + b
    ensures Taken(request, s, u, n, sum)
  {
    TimesAdds(request.mem, a, b);
    TimesAdds(request.cpu, a, b);
  }

  lemma {:induction false} ReserveCharges(s: Stock, request: Request, rus: seq<Name>, n: Name)
    requires n in s.mem && n in s.cpu
    ensures Taken(request, s, Reserve(s, request, rus), n, Count(rus, n))
    decreases |rus|
  {
    if rus == [] {
    } else {
      ReserveCharges(s, request, rus[..|rus|-1], n);
    }
  }

  lemma AfterIsReserve(c: Setup, s: Stock, e: Event)
    ensures After(c, s, e).mem == Reserve(s, c.request, Charges(e)).mem
    ensures After(c, s, e).cpu == Reserve(s, c.request, Charges(e)).cpu
  {
    match e {
      case Skipped =>
      case Placed(path, du) =>
        if 1 < |path| && du < |path| {
          assert [path[du], path[1]][..1] == [path[du]];
          assert [path[du]][..0] == [];
          assert Reserve(s, c.request, [path[du]]) == Charged(s, path[du], c.request);
        }
    }
  }

  lemma EventBill(c: Setup, s: Stock, e: Event, n: Name)
    requires n in s.mem && n in s.cpu
    ensures Taken(c.request, s, After(c, s, e), n, Count(Charges(e), n))
  {
    AfterIsReserve(c, s, e);
    ReserveCharges(s, c.request, Charges(e), n);
  }

  /** Node by node, what is gone is one request for each CU and each DU placed there. */
  lemma {:induction false} NodesConserved(c: Setup, s: Stock, events: seq<Event>, k: nat, n: Name)
    requires k <= |events| && n in s.mem && n in s.cpu
    ensures Taken(c.request, s, At(c, s, events, k), n, PiecesOn(events, n, k))
    decreases k
  {
    if k == 0 {
    } else {
      var t, e := At(c, s, events, k - 1), events[k-1];
      NodesConserved(c, s, events, k - 1, n);
      EventBill(c, t, e, n);
      TakenAdds(c.request, s, t, After(c, t, e), n, PiecesOn(events, n, k - 1), Count(Charges(e), n),
                PiecesOn(events, n, k));
    }
  }

  /** The whole bill of a node: one request for each RU reserved on it and each CU and DU placed on it. */
  lemma NodeBill(c: Setup, s: Stock, rus: seq<Name>, events: seq<Event>, r: Stock, n: Name)
    requires r == Reserve(s, c.request, rus) && n in s.mem && n in s.cpu
    ensures Taken(c.request, s, At(c, r, events, |events|), n, Count(rus, n) + PiecesOn(events, n, |events|))
  {
    ReserveCharges(s, c.request, rus, n);
    NodesConserved(c, r, events, |events|, n);
    TakenAdds(c.request, s, r, At(c, r, events, |events|), n, Count(rus, n), PiecesOn(events, n, |events|),
              Count(rus, n) + PiecesOn(events, n, |events|));
  }

  /** Node `n` is not overdrawn. */
  ghost predicate Covered(s: Stock, n: Name) {
    (n in s.mem ==> s.mem[n] >= 0) && (n in s.cpu ==> s.cpu[n] >= 0)
  }

  lemma AfterCovered(c: Setup, s: Stock, ru: Name, e: Event, n: Name)
    requires Sound(c, s, ru, e) && Covered(s, n)
    ensures Covered(After(c, s, e), n)
  {
    match e {
      case Skipped =>
      case Placed(path, du) =>
        FirstFitIsDu(s, c.request, path);
        RoomLeaves(s.mem[path[du]], s.cpu[path[du]], c.request);
        RoomLeaves(s.mem[path[1]], s.cpu[path[1]], c.request);
    }
  }

  /** No event overdraws a node. */
  lemma {:induction false} NodesCovered(c: Setup, s: Stock, rus: seq<Name>, events: seq<Event>, k: nat, n: Name)
    requires Run(c, s, rus, events) && k <= |events| && Covered(s, n)
    ensures Covered(At(c, s, events, k), n)
    decreases k
  {
    if k == 0 {
    } else {
      var t, e := At(c, s, events, k - 1), events[k-1];
      NodesCovered(c, s, rus, events, k - 1, n);
      RunStep(c, s, rus, events, k - 1);
      AfterCovered(c, t, rus[k-1], e, n);
    }
  }

  /** A node that has just taken a CU or a DU keeps strictly more than rounding up added to the request. */
  lemma JustPlacedKeeps(c: Setup, s: Stock, ru: Name, path: Path, du: nat, n: Name)
    requires Placeable(c, s, ru, path, du) && n in {path[1], path[du]}
    ensures var t := After(c, s, Placed(path, du));
            && n in t.mem && t.mem[n] > Value(c.request.mem) * 1000 - c.request.mem
            && n in t.cpu && t.cpu[n] > Value(c.request.cpu) * 1000 - c.request.cpu
  {
    FirstFitIsDu(s, c.request, path);
    RoomLeaves(s.mem[n], s.cpu[n], c.request);
  }

  // ---- when reserving succeeds ----

  /** The reservation loop gets past its first `k` RUs. */
  ghost predicate ReservedUpTo(s: Stock, request: Request, rus: seq<Name>, k: nat)
    requires k <= |rus|
  {
    forall i :: 0 <= i < k ==> Covered(Reserve(s, request, rus[..i+1]), rus[i])
  }

  lemma {:induction false} CountPrefix(rus: seq<Name>, i: nat, n: Name)
    requires i <= |rus|
    ensures Count(rus[..i], n) <= Count(rus, n)
    ensures i < |rus| && rus[i] == n ==> Count(rus[..i+1], n) == Count(rus[..i], n) + 1
    decreases |rus|
  {
    if i < |rus| {
      assert rus[..i+1][..i] == rus[..i];
      assert rus[..|rus|-1][..i] == rus[..i];
      CountPrefix(rus[..|rus|-1], i, n);
    } else {
      assert rus[..i] == rus;
    }
  }

  /** The last reservation made on a node. */
  lemma {:induction false} LastOn(rus: seq<Name>, n: Name) returns (i: nat)
    requires Count(rus, n) > 0
    ensures i < |rus| && rus[i] == n && Count(rus[..i+1], n) == Count(rus, n)
    decreases |rus|
  {
    var k := |rus| - 1;
    if rus[k] == n {
      i := k;
      assert rus[..k+1] == rus;
    } else {
      i := LastOn(rus[..k], n);
      assert rus[..k][..i+1] == rus[..i+1];
    }
  }

  ghost predicate Affords(s: Stock, request: Request, rus: seq<Name>, n: Name) {
    && n in s.mem && Times(request.mem, Count(rus, n)) <= s.mem[n]
    && n in s.cpu && Times(request.cpu, Count(rus, n)) <= s.cpu[n]
  }

  lemma {:induction false} TimesGrows(amount: int, a: nat, b: nat)
    requires amount >= 0 && a <= b
    ensures Times(amount, a) <= Times(amount, b)
    decreases b
  {
    if a == b {
    } else {
      TimesGrows(amount, a, b - 1);
    }
  }

  /** Reservation succeeds exactly when every RU's node affords all the RUs requested on it. */
  lemma ReservationSucceedsIff(s: Stock, request: Request, rus: seq<Name>)
    requires request.mem >= 0 && request.cpu >= 0
    requires forall n :: n in rus ==> n in s.mem && n in s.cpu
    ensures ReservedUpTo(s, request, rus, |rus|) <==> forall n :: n in rus ==> Affords(s, request, rus, n)
  {
    if ReservedUpTo(s, request, rus, |rus|) {
      forall n | n in rus ensures Affords(s, request, rus, n) {
        CountPositive(rus, n);
        var i := LastOn(rus, n);
        ReserveKeys(s, request, rus[..i+1]);
        ReserveCharges(s, request, rus[..i+1], n);
      }
    }
    if forall n :: n in rus ==> Affords(s, request, rus, n) {
      forall i | 0 <= i < |rus| ensures Covered(Reserve(s, request, rus[..i+1]), rus[i]) {
        assert Affords(s, request, rus, rus[i]);
        ReserveCharges(s, request, rus[..i+1], rus[i]);
        CountPrefix(rus, i + 1, rus[i]);
        TimesGrows(request.mem, Count(rus[..i+1], rus[i]), Count(rus, rus[i]));
        TimesGrows(request.cpu, Count(rus[..i+1], rus[i]), Count(rus, rus[i]));
      }
    }
  }

  lemma {:induction false} CountPositive(rus: seq<Name>, n: Name)
    requires n in rus
    ensures Count(rus, n) > 0
    decreases |rus|
  {
    var k := |rus| - 1;
    assert rus == rus[..k] + [rus[k]];
    if rus[k] != n {
      CountPositive(rus[..k], n);
    }
  }

  lemma {:induction false} NoCountNoCharge(rus: seq<Name>, n: Name)
    ensures n !in rus ==> Count(rus, n) == 0
    decreases |rus|
  {
    if rus == [] {
    } else {
      NoCountNoCharge(rus[..|rus|-1], n);
    }
  }

  lemma LastReservation(s: Stock, request: Request, rus: seq<Name>, n: Name, i: nat)
    requires n in s.mem && n in s.cpu && i < |rus| && Count(rus[..i+1], n) == Count(rus, n)
    ensures Covered(Reserve(s, request, rus[..i+1]), n) <==> Covered(Reserve(s, request, rus), n)
  {
    ReserveCharges(s, request, rus, n);
    ReserveCharges(s, request, rus[..i+1], n);
  }

  lemma Untouched(s: Stock, request: Request, rus: seq<Name>, n: Name)
    requires n in s.mem && n in s.cpu && n !in rus
    ensures Covered(Reserve(s, request, rus), n) <==> Covered(s, n)
  {
    ReserveCharges(s, request, rus, n);
    NoCountNoCharge(rus, n);
  }

  /** Once the reservations have gone through, no node is overdrawn that was not so to begin with. */
  lemma ReservedCovered(s: Stock, request: Request, rus: seq<Name>, n: Name)
    requires ReservedUpTo(s, request, rus, |rus|) && Covered(s, n) && n in s.mem && n in s.cpu
    ensures Covered(Reserve(s, request, rus), n)
  {
    if n in rus {
      CountPositive(rus, n);
      var i := LastOn(rus, n);
      LastReservation(s, request, rus, n, i);
    } else {
      Untouched(s, request, rus, n);
    }
  }

  /** The final stock of a whole placement, link by link and node by node. */
  ghost predicate Settled(c: Setup, s: Stock, rus: seq<Name>, events: seq<Event>, t: Stock, l: Name, n: Name) {
    && (l in s.bw <==> l in t.bw)
    && (l in s.bw ==> t.bw[l] == s.bw[l] - BandwidthUsed(c, events, l, |events|))
    && (n in s.mem && n in s.cpu ==>
          Taken(c.request, s, t, n, Count(rus, n) + PiecesOn(events, n, |events|)))
  }

  lemma LinkBill(c: Setup, r: Stock, rus: seq<Name>, events: seq<Event>, l: Name)
    requires Run(c, r, rus, events)
    ensures var t := At(c, r, events, |events|);
            (l in r.bw <==> l in t.bw) && (l in r.bw ==> t.bw[l] == r.bw[l] - BandwidthUsed(c, events, l, |events|))
  {
    BandwidthConserved(c, r, rus, events, |events|);
  }

  lemma RunSettles(c: Setup, s: Stock, rus: seq<Name>, events: seq<Event>, r: Stock, l: Name, n: Name)
    requires r == Reserve(s, c.request, rus) && Run(c, r, rus, events)
    ensures Settled(c, s, rus, events, At(c, r, events, |events|), l, n)
  {
    ReserveKeys(s, c.request, rus);
    LinkBill(c, r, rus, events, l);
    if n in s.mem && n in s.cpu {
      NodeBill(c, s, rus, events, r, n);
    }
  }

  /** A whole placement leaves no link and no node negative, if none was. */
  lemma RunStaysSolvent(c: Setup, s: Stock, rus: seq<Name>, events: seq<Event>, r: Stock, n: Name)
    requires Wired(c.net) && r == Reserve(s, c.request, rus) && Run(c, r, rus, events)
    requires ReservedUpTo(s, c.request, rus, |rus|)
    requires Solvent(s.bw) && Covered(s, n) && n in s.mem && n in s.cpu
    ensures Solvent(At(c, r, events, |events|).bw)
    ensures Covered(At(c, r, events, |events|), n)
  {
    ReserveKeys(s, c.request, rus);
    ReservedCovered(s, c.request, rus, n);
    BandwidthNonNegative(c, r, rus, events, |events|);
    NodesCovered(c, r, rus, events, |events|, n);
  }

  // ---- what a placed chain looks like ----

  /** An RU with a feasible shortest path is placed; an unreachable one is not. */
  lemma EventDecided(c: Setup, s: Stock, ru: Name, e: Event)
    requires Legal(c, s, ru, e)
    ensures (exists q :: Shortest(Neighbours(c.net), c.root, ru, q) && Feasible(c.net, s, c.request, c.reqs, q)) ==>
              e.Placed?
    ensures !Reachable(Neighbours(c.net), c.root, ru) ==> e.Skipped?
    ensures ru != c.root
  {
    match e {
      case Skipped =>
      case Placed(path, du) => assert path[0] != path[|path|-1];
    }
  }

  /**
    What placing a chain promises: a simple path of links from the core to the RU, room for the CU on its
    second node and for the DU on the first later interior node that has any, and every segment's
    bandwidth and latency within its requirement.
   */
  lemma PlacedIsSound(c: Setup, s: Stock, ru: Name, path: Path, du: nat)
    requires Placeable(c, s, ru, path, du) && NonNegative(c.net)
    ensures SimplePath(c.net, path) && path[0] == c.root && path[|path|-1] == ru
    ensures HasRoom(s, c.request, path[1]) && HasRoom(s, c.request, path[du])
    ensures forall m :: 2 <= m < du ==> !HasRoom(s, c.request, path[m])
    ensures SegmentsOk(c.net, s.bw, c.reqs, path, du)
  {
    FirstFitProperty(s, c.request, path, 2);
    SweepDecidesSegments(c.net, s.bw, c.reqs, path, du);
  }

  function PlacedCount(events: seq<Event>): nat {
    if events == [] then 0
    else PlacedCount(events[..|events|-1]) + if events[|events|-1].Placed? then 1 else 0
  }

  /** A placed chain's path is shortest or one hop longer, and its RU is at least two hops from the core. */
  lemma PlacedDistance(c: Setup, s: Stock, ru: Name, path: Path, du: nat)
    requires Placeable(c, s, ru, path, du)
    ensures var g := Neighbours(c.net);
            && Reachable(g, c.root, ru)
            && Dist(g, c.root, ru) <= |path| - 1 <= Dist(g, c.root, ru) + 1
            && Dist(g, c.root, ru) >= 2
  {
    var g := Neighbours(c.net);
    assert Joins(g, c.root, ru, path);
    var d := Dist(g, c.root, ru);
    var q :| Shortest(g, c.root, ru, q) && |q| == d + 1;
  }

  /** The harness's hop count of a placed chain is the RU's distance or one more. */
  lemma PlacedHops(c: Setup, s: Stock, ru: Name, path: Path, du: nat)
    requires Placeable(c, s, ru, path, du)
    ensures var g := Neighbours(c.net);
            var p := Placement(path[1], path[du], ru);
            && Reachable(g, c.root, ru) && Countable(g, c.root, p)
            && Dist(g, c.root, ru) <= Hops(g, c.root, p) <= |path| - 1 <= Dist(g, c.root, ru) + 1
            && (Shortest(g, c.root, ru, path) ==> Hops(g, c.root, p) == |path| - 1)
  {
    PlacedDistance(c, s, ru, path, du);
    HopsOfChain(Neighbours(c.net), c.root, ru, path, 1, du);
  }
}
