/**
  What it means for a chain to fit: a path from the core to an RU with the CU on its second node
  and the DU at index `j` further along.  The index `|path| - 1` stands for "no DU was found".
  Amounts of memory and CPU are integers in thousandths of a unit; bandwidths and latencies are exact.
 */
module Chains {
  import opened Graphs

  /** `wire[a][b]` names the link that joins `a` to its neighbour `b`. */
  datatype Net = Net(wire: map<Name, map<Name, Name>>, latency: map<Name, real>)

  datatype Requirement = Requirement(bandwidth: real, latency: real)

  datatype Requirements = Requirements(backhaul: Requirement, midhaul: Requirement, fronthaul: Requirement)

  datatype Request = Request(mem: int, cpu: int)

  /** What is left on every node and every link. */
  datatype Stock = Stock(mem: map<Name, int>, cpu: map<Name, int>, bw: map<Name, real>)

  function Neighbours(net: Net): Graph {
    map a | a in net.wire :: net.wire[a].Keys
  }

  ghost predicate Edge(net: Net, a: Name, b: Name) {
    a in net.wire && b in net.wire[a]
  }

  /** Links are undirected, and a link joins one unordered pair of nodes only. */
  ghost predicate Wired(net: Net) {
    match net
    case Net(wire, latency) =>
      && NO_NAME !in wire
      && (forall a, b {:trigger Edge(net, a, b)} :: Edge(net, a, b) ==>
            Edge(net, b, a) && wire[a][b] == wire[b][a] && wire[a][b] in latency)
      && (forall a, b, c, d {:trigger Edge(net, a, b), Edge(net, c, d)} ::
            Edge(net, a, b) && Edge(net, c, d) && wire[a][b] == wire[c][d] ==>
            (a == c && b == d) || (a == d && b == c))
  }

  /** A walk along links that repeats no node. */
  ghost predicate SimplePath(net: Net, path: Path) {
    Walk(Neighbours(net), path) && Distinct(path)
  }

  /** Whole units, rounded away from zero: the library's `Quantity.Value`. */
  function Value(q: int): int {
    if q >= 0 then (q + 999) / 1000 else -((-q + 999) / 1000)
  }

  predicate Fits(mem: int, cpu: int, request: Request) {
    Value(mem) > Value(request.mem) && Value(cpu) > Value(request.cpu)
  }

  /**
    A node that passes the test keeps, after the debit, strictly more than what rounding the request up
    added to it; in particular it is not overdrawn.
   */
  lemma RoomLeaves(mem: int, cpu: int, request: Request)
    requires Fits(mem, cpu, request)
    ensures mem - request.mem > Value(request.mem) * 1000 - request.mem
    ensures cpu - request.cpu > Value(request.cpu) * 1000 - request.cpu
    ensures mem - request.mem > 0 && cpu - request.cpu > 0
  {
  }

  /** Positive amounts are rounded up to whole units, negative ones down. */
  lemma ValueRounds(q: int)
    ensures q >= 0 ==> 1000 * (Value(q) - 1) < q <= 1000 * Value(q)
    ensures q <= 0 ==> 1000 * Value(q) <= q < 1000 * (Value(q) + 1)
  {
  }

  /** A number of whole units lies from what is wanted up to, but short of, what is left. */
  ghost predicate Separates(units: int, wanted: int, left: int) {
    if wanted >= 0 then wanted <= 1000 * units < left else wanted < 1000 * units <= left
  }

  ghost predicate Spare(left: int, wanted: int) {
    exists units :: Separates(units, wanted, left)
  }

  lemma SpareIff(left: int, wanted: int)
    ensures Value(left) > Value(wanted) <==> Spare(left, wanted)
  {
    ValueRounds(left);
    ValueRounds(wanted);
    var units := if wanted >= 0 then Value(wanted) else Value(wanted) + 1;
    assert Value(left) > Value(wanted) ==> Separates(units, wanted, left);
  }

  ghost predicate HasRoom(s: Stock, request: Request, n: Name) {
    n in s.mem && n in s.cpu && Fits(s.mem[n], s.cpu[n], request)
  }

  /**
    Which nodes have room: those where, of memory and of CPU, whole units separate the request from what
    is left.  Having more left than requested is not enough.
   */
  lemma HasRoomIff(s: Stock, request: Request, n: Name)
    requires n in s.mem && n in s.cpu
    ensures HasRoom(s, request, n) <==> Spare(s.mem[n], request.mem) && Spare(s.cpu[n], request.cpu)
  {
    SpareIff(s.mem[n], request.mem);
    SpareIff(s.cpu[n], request.cpu);
  }

  /** The first index at or after `k`, short of the path's end, with room for a DU; else the last index. */
  ghost function FirstFit(s: Stock, request: Request, path: Path, k: nat): (j: nat)
    ensures j == |path| - 1 || k <= j < |path| - 1 || |path| == 0
    decreases |path| - k
  {
    if k + 1 >= |path| then (if |path| == 0 then 0 else |path| - 1)
    else if HasRoom(s, request, path[k]) then k
    else FirstFit(s, request, path, k + 1)
  }

  ghost function DuIndex(s: Stock, request: Request, path: Path): nat {
    FirstFit(s, request, path, 2)
  }

  /** The link after the i-th node of a walk. */
  function LinkAt(net: Net, path: Path, i: nat): Name {
    if i + 1 < |path| && path[i] in net.wire && path[i+1] in net.wire[path[i]]
    then net.wire[path[i]][path[i+1]] else NO_NAME
  }

  function LatencyOf(net: Net, l: Name): real {
    if l in net.latency then net.latency[l] else 0.0
  }

  function Left(bw: map<Name, real>, l: Name): real {
    if l in bw then bw[l] else 0.0
  }

  function Latency(net: Net, path: Path, a: nat, b: nat): real {
    if b <= a then 0.0 else Latency(net, path, a, b - 1) + LatencyOf(net, LinkAt(net, path, b - 1))
  }

  /** What a list of amounts adds up to. */
  function Sum(amounts: seq<real>): real {
    if amounts == [] then 0.0 else Sum(amounts[..|amounts|-1]) + amounts[|amounts|-1]
  }

  lemma SumOfOne(amount: real)
    ensures Sum([amount]) == amount
  {
    assert [amount][..0] == [];
  }

  lemma {:induction false} SumConcat(a: seq<real>, b: seq<real>)
    ensures Sum(a + b) == Sum(a) + Sum(b)
    decreases |b|
  {
    if b == [] {
      assert a + b == a;
    } else {
      assert (a + b)[..|a + b|-1] == a + b[..|b|-1];
      SumConcat(a, b[..|b|-1]);
    }
  }

  /** The latencies of a path's links from its node `a` to its node `b`. */
  function Delays(net: Net, path: Path, a: nat, b: nat): seq<real>
    requires a <= b
  {
    seq(b - a, i requires 0 <= i => LatencyOf(net, LinkAt(net, path, a + i)))
  }

  /** The running latency is the sum of the latencies of the links passed. */
  lemma {:induction false} LatencyIsSum(net: Net, path: Path, a: nat, b: nat)
    requires a <= b
    ensures Latency(net, path, a, b) == Sum(Delays(net, path, a, b))
    decreases b
  {
    if a == b {
    } else {
      LatencyIsSum(net, path, a, b - 1);
      assert Delays(net, path, a, b)[..b-1-a] == Delays(net, path, a, b - 1);
    }
  }

  lemma LatencyAdds(net: Net, path: Path, a: nat, b: nat, c: nat)
    requires a <= b <= c
    ensures Latency(net, path, a, c) == Latency(net, path, a, b) + Latency(net, path, b, c)
  {
    LatencyIsSum(net, path, a, b);
    LatencyIsSum(net, path, b, c);
    LatencyIsSum(net, path, a, c);
    SumConcat(Delays(net, path, a, b), Delays(net, path, b, c));
    assert Delays(net, path, a, c) == Delays(net, path, a, b) + Delays(net, path, b, c);
  }

  /** One hop has the latency of the one link that it leads over. */
  lemma LatencyOfHop(net: Net, path: Path, i: nat)
    requires Wired(net) && Walk(Neighbours(net), path) && i + 1 < |path|
    ensures Edge(net, path[i], path[i+1]) && net.wire[path[i]][path[i+1]] in net.latency
    ensures Latency(net, path, i, i + 1) == net.latency[net.wire[path[i]][path[i+1]]]
  {
    StepIsEdge(net, path, i);
    assert Latency(net, path, i, i) == 0.0;
  }

  /** The requirement a link is judged against: backhaul up to the CU, midhaul up to the DU, then fronthaul. */
  function SegmentOf(reqs: Requirements, i: nat, j: nat): Requirement {
    if i == 0 then reqs.backhaul else if i < j then reqs.midhaul else reqs.fronthaul
  }

  function SegmentStart(i: nat, j: nat): nat {
    if i == 0 then 0 else if i < j then 1 else j
  }

  // ---- the sweep along a path, and the three segments it stands for ----

  ghost predicate LinkOk(net: Net, bw: map<Name, real>, reqs: Requirements, path: Path, j: nat, i: nat) {
    var r := SegmentOf(reqs, i, j);
    && Left(bw, LinkAt(net, path, i)) >= r.bandwidth
    && !(r.latency > 0.0 && Latency(net, path, SegmentStart(i, j), i + 1) > r.latency)
  }

  /** The first `k` links pass. */
  ghost predicate SweptOk(net: Net, bw: map<Name, real>, reqs: Requirements, path: Path, j: nat, k: int) {
    forall i: nat :: i < k ==> LinkOk(net, bw, reqs, path, j, i)
  }

  ghost predicate SweepOk(net: Net, bw: map<Name, real>, reqs: Requirements, path: Path, j: nat) {
    SweptOk(net, bw, reqs, path, j, |path| - 1)
  }

  ghost predicate SegmentOk(net: Net, bw: map<Name, real>, path: Path, a: nat, b: nat, r: Requirement)
    requires a <= b
  {
    && (forall i: nat :: a <= i < b ==> Left(bw, LinkAt(net, path, i)) >= r.bandwidth)
    && (r.latency > 0.0 ==> Sum(Delays(net, path, a, b)) <= r.latency)
  }

  /** Each segment has its bandwidth on every link, and its latencies add up to its bound at most, if it has one. */
  ghost predicate SegmentsOk(net: Net, bw: map<Name, real>, reqs: Requirements, path: Path, j: nat)
    requires 1 <= j < |path|
  {
    && SegmentOk(net, bw, path, 0, 1, reqs.backhaul)
    && SegmentOk(net, bw, path, 1, j, reqs.midhaul)
    && SegmentOk(net, bw, path, j, |path| - 1, reqs.fronthaul)
  }

  ghost predicate NonNegative(net: Net) {
    forall l :: l in net.latency ==> net.latency[l] >= 0.0
  }

  lemma {:induction false} LatencyGrows(net: Net, path: Path, a: nat, b: nat, c: nat)
    requires NonNegative(net) && b <= c
    ensures Latency(net, path, a, b) <= Latency(net, path, a, c)
    decreases c
  {
    if b == c {
    } else {
      LatencyGrows(net, path, a, b, c - 1);
    }
  }

  /** On the links of one segment the sweep decides that segment. */
  lemma SweepDecidesSegment(net: Net, bw: map<Name, real>, reqs: Requirements, path: Path, j: nat,
                            a: nat, b: nat, r: Requirement)
    requires NonNegative(net) && a <= b
    requires forall i: nat :: a <= i < b ==> SegmentOf(reqs, i, j) == r && SegmentStart(i, j) == a
    ensures SegmentOk(net, bw, path, a, b, r) <==>
              forall i: nat :: a <= i < b ==> LinkOk(net, bw, reqs, path, j, i)
  {
    LatencyIsSum(net, path, a, b);
    if forall i: nat :: a <= i < b ==> LinkOk(net, bw, reqs, path, j, i) {
      forall i: nat | a <= i < b ensures Left(bw, LinkAt(net, path, i)) >= r.bandwidth {
        assert LinkOk(net, bw, reqs, path, j, i);
      }
      if a < b {
        assert LinkOk(net, bw, reqs, path, j, b - 1);
      }
    }
    if SegmentOk(net, bw, path, a, b, r) {
      forall i: nat | a <= i < b ensures LinkOk(net, bw, reqs, path, j, i) {
        LatencyGrows(net, path, a, i + 1, b);
      }
    }
  }

  /** The per-link sweep, with its running sum reset at the CU and the DU, decides the three segments. */
  lemma SweepDecidesSegments(net: Net, bw: map<Name, real>, reqs: Requirements, path: Path, j: nat)
    requires NonNegative(net) && 1 <= j < |path|
    ensures SweepOk(net, bw, reqs, path, j) <==> SegmentsOk(net, bw, reqs, path, j)
  {
    SweepDecidesSegment(net, bw, reqs, path, j, 0, 1, reqs.backhaul);
    SweepDecidesSegment(net, bw, reqs, path, j, 1, j, reqs.midhaul);
    SweepDecidesSegment(net, bw, reqs, path, j, j, |path| - 1, reqs.fronthaul);
  }

  /** The candidate that validation draws from a path passes its checks. */
  ghost predicate Feasible(net: Net, s: Stock, request: Request, reqs: Requirements, path: Path) {
    && |path| >= 2
    && HasRoom(s, request, path[1])
    && SweepOk(net, s.bw, reqs, path, DuIndex(s, request, path))
  }

  // ---- how much of a link a chain uses ----

  /** Bandwidth that the first `k` links of the path take from link `l`. */
  function Usage(net: Net, reqs: Requirements, path: Path, j: nat, l: Name, k: nat): real {
    if k == 0 then 0.0
    else
      Usage(net, reqs, path, j, l, k - 1) +
      if LinkAt(net, path, k - 1) == l then SegmentOf(reqs, k - 1, j).bandwidth else 0.0
  }

  lemma StepIsEdge(net: Net, path: Path, i: nat)
    requires Walk(Neighbours(net), path) && i + 1 < |path|
    ensures Edge(net, path[i], path[i+1]) && LinkAt(net, path, i) == net.wire[path[i]][path[i+1]]
  {
    assert path[i+1] in Neighbours(net)[path[i]];
  }

  ghost predicate NoLinkTwice(net: Net, path: Path) {
    forall i: nat, k: nat :: i < k < |path| - 1 ==> LinkAt(net, path, i) != LinkAt(net, path, k)
  }

  /** A simple path crosses no link twice, in either direction. */
  lemma LinksDistinct(net: Net, path: Path)
    requires Wired(net) && SimplePath(net, path)
    ensures NoLinkTwice(net, path)
  {
    forall i: nat, k: nat | i < k < |path| - 1 ensures LinkAt(net, path, i) != LinkAt(net, path, k) {
      StepIsEdge(net, path, i);
      StepIsEdge(net, path, k);
    }
  }

  lemma {:induction false} UsageNone(net: Net, reqs: Requirements, path: Path, j: nat, l: Name, k: nat)
    requires forall i: nat :: i < k ==> LinkAt(net, path, i) != l
    ensures Usage(net, reqs, path, j, l, k) == 0.0
    decreases k
  {
    if k == 0 {
    } else {
      UsageNone(net, reqs, path, j, l, k - 1);
    }
  }

  /** Such a path takes from each of its links exactly its segment's bandwidth. */
  lemma {:induction false} UsageOnce(net: Net, reqs: Requirements, path: Path, j: nat, i: nat, k: nat)
    requires NoLinkTwice(net, path) && i < k < |path|
    ensures Usage(net, reqs, path, j, LinkAt(net, path, i), k) == SegmentOf(reqs, i, j).bandwidth
    decreases k
  {
    if i < k - 1 {
      UsageOnce(net, reqs, path, j, i, k - 1);
    } else {
      UsageNone(net, reqs, path, j, LinkAt(net, path, i), i);
    }
  }

  /** Is the i-th link not negative once the path has been debited up to and including it? */
  ghost predicate PayableAt(net: Net, bw: map<Name, real>, reqs: Requirements, path: Path, j: nat, i: nat) {
    Left(bw, LinkAt(net, path, i)) - Usage(net, reqs, path, j, LinkAt(net, path, i), i + 1) >= 0.0
  }

  /** Can the first `k` links be debited in turn without any of them going negative? */
  ghost predicate Payable(net: Net, bw: map<Name, real>, reqs: Requirements, path: Path, j: nat, k: int) {
    forall i: nat :: i < k ==> PayableAt(net, bw, reqs, path, j, i)
  }

  lemma SweepAndPayStep(net: Net, bw: map<Name, real>, reqs: Requirements, path: Path, j: nat, k: nat)
    ensures SweptOk(net, bw, reqs, path, j, k + 1) <==>
              SweptOk(net, bw, reqs, path, j, k) && LinkOk(net, bw, reqs, path, j, k)
    ensures Payable(net, bw, reqs, path, j, k + 1) <==>
              Payable(net, bw, reqs, path, j, k) && PayableAt(net, bw, reqs, path, j, k)
  {
  }

  lemma PaysAt(net: Net, bw: map<Name, real>, reqs: Requirements, path: Path, j: nat, i: nat)
    requires NoLinkTwice(net, path) && i < |path| - 1 && LinkOk(net, bw, reqs, path, j, i)
    ensures PayableAt(net, bw, reqs, path, j, i)
  {
    UsageOnce(net, reqs, path, j, i, i + 1);
  }

  /** Checking every link against its segment before debiting any of them is enough, on a simple path. */
  lemma CheckedIsPayable(net: Net, bw: map<Name, real>, reqs: Requirements, path: Path, j: nat)
    requires Wired(net) && SimplePath(net, path) && SweepOk(net, bw, reqs, path, j)
    ensures Payable(net, bw, reqs, path, j, |path| - 1)
  {
    LinksDistinct(net, path);
    forall i: nat | i < |path| - 1 ensures PayableAt(net, bw, reqs, path, j, i) {
      PaysAt(net, bw, reqs, path, j, i);
    }
  }

  /** On a path that crosses a link twice the check would not be enough: it looks at each hop by itself. */
  lemma CheckMissesRepeats(a: Name, b: Name, l: Name, demand: real)
    requires a != b && demand > 0.0
    ensures var net := Net(map[a := map[b := l], b := map[a := l]], map[l := 0.0]);
            var r := Requirement(demand, 0.0);
            var path := [a, b, a];
            && Walk(Neighbours(net), path)
            && SweepOk(net, map[l := demand], Requirements(r, r, r), path, 2)
            && !Payable(net, map[l := demand], Requirements(r, r, r), path, 2, 2)
  {
    var net := Net(map[a := map[b := l], b := map[a := l]], map[l := 0.0]);
    var r := Requirement(demand, 0.0);
    var path := [a, b, a];
    assert LinkAt(net, path, 0) == l && LinkAt(net, path, 1) == l;
    assert Usage(net, Requirements(r, r, r), path, 2, l, 2) == demand + demand by {
      assert Usage(net, Requirements(r, r, r), path, 2, l, 1) == demand;
    }
    assert !PayableAt(net, map[l := demand], Requirements(r, r, r), path, 2, 1);
  }

  /** Bandwidth left after the first `k` hops of a chain have been debited. */
  function DebitedUpTo(net: Net, bw: map<Name, real>, reqs: Requirements, path: Path, j: nat, k: nat): map<Name, real> {
    map l | l in bw :: bw[l] - Usage(net, reqs, path, j, l, k)
  }

  /** Bandwidth left after a whole chain has been debited. */
  function Debited(net: Net, bw: map<Name, real>, reqs: Requirements, path: Path, j: nat): map<Name, real> {
    DebitedUpTo(net, bw, reqs, path, j, if path == [] then 0 else |path| - 1)
  }

  /** Each hop changes the bandwidth of its own link only. */
  lemma DebitedStep(net: Net, bw: map<Name, real>, reqs: Requirements, path: Path, j: nat, i: nat)
    requires LinkAt(net, path, i) in bw
    ensures var now, l := DebitedUpTo(net, bw, reqs, path, j, i), LinkAt(net, path, i);
            && DebitedUpTo(net, bw, reqs, path, j, i + 1) == now[l := now[l] - SegmentOf(reqs, i, j).bandwidth]
            && (PayableAt(net, bw, reqs, path, j, i) <==> now[l] >= SegmentOf(reqs, i, j).bandwidth)
  {
  }

  function Take(amounts: map<Name, int>, n: Name, amount: int): map<Name, int> {
    if n in amounts then amounts[n := amounts[n] - amount] else amounts
  }

  function Charged(s: Stock, n: Name, request: Request): Stock {
    s.(mem := Take(s.mem, n, request.mem), cpu := Take(s.cpu, n, request.cpu))
  }

  /** Charging the request to node `n` would overdraw it. */
  ghost predicate Short(s: Stock, request: Request, n: Name) {
    n in s.mem && n in s.cpu && (s.mem[n] < request.mem || s.cpu[n] < request.cpu)
  }

  /** The stock after the DU at index `j`, the CU and the path's links have been paid for. */
  function AllocateChain(net: Net, s: Stock, request: Request, reqs: Requirements, path: Path, j: nat): Stock
    requires 1 < |path| && j < |path|
  {
    Charged(Charged(s, path[j], request), path[1], request).(bw := Debited(net, s.bw, reqs, path, j))
  }

  lemma DebitedNonNegative(net: Net, bw: map<Name, real>, reqs: Requirements, path: Path, j: nat)
    requires Wired(net) && SimplePath(net, path)
    requires SweepOk(net, bw, reqs, path, j) && forall l :: l in bw ==> bw[l] >= 0.0
    ensures forall l :: l in bw ==> Debited(net, bw, reqs, path, j)[l] >= 0.0
  {
    var n := |path| - 1;
    LinksDistinct(net, path);
    forall l | l in bw ensures bw[l] - Usage(net, reqs, path, j, l, n) >= 0.0 {
      if i: nat :| i < n && LinkAt(net, path, i) == l {
        UsageOnce(net, reqs, path, j, i, n);
        assert LinkOk(net, bw, reqs, path, j, i);
      } else {
        UsageNone(net, reqs, path, j, l, n);
      }
    }
  }
}
