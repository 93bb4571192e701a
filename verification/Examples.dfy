/** Small networks on which the placement does what one might not expect. */
module Examples {
  import opened Graphs
  import opened SearchResults
  import opened Chains
  import opened Dsg8
  import opened Ledger
  import opened Outcomes
  import opened Placement
  import opened Report
  import SplitsPlacer

  const ONE := Requirement(1.0, 0.0)
  const REQUEST := Request(1000, 1000)

  function SetupOf(net: Net, root: Name): Setup {
    Setup(net, root, REQUEST, Requirements(ONE, ONE, ONE))
  }

  /** Five units of memory and CPU on every node, and these bandwidths. */
  ghost function Equipped(net: Net, bw: map<Name, real>): Stock {
    Stock(map n | n in net.wire :: 5000, map n | n in net.wire :: 5000, bw)
  }

  function Ample(net: Net): map<Name, real> {
    map l | l in net.latency :: 10.0
  }

  /** With one RU reserved there still is room everywhere. */
  lemma RoomEverywhere(net: Net, bw: map<Name, real>, u: Name)
    requires u in net.wire
    ensures var s, t := Equipped(net, bw), Reserve(Equipped(net, bw), REQUEST, [u]);
            && ReservedUpTo(s, REQUEST, [u], 1) && t.bw == bw
            && forall n :: n in net.wire ==> HasRoom(t, REQUEST, n)
  {
    var s := Equipped(net, bw);
    assert [u][..0] == [] && [u][..1] == [u];
    assert Reserve(s, REQUEST, []) == s;
    assert Reserve(s, REQUEST, [u]) == Charged(s, u, REQUEST);
  }

  /** A request for one RU, reserved and then dealt with by a legal event. */
  lemma OneRuRuns(c: Setup, s: Stock, u: Name, e: Event)
    requires ReservedUpTo(s, c.request, [u], 1) && Legal(c, Reserve(s, c.request, [u]), u, e)
    ensures RanUpTo(c, [u], s, [e], 1)
  {
    assert LegalAt(c, Reserve(s, c.request, [u]), [u], [e], 0);
  }

  lemma LinkPasses(net: Net, bw: map<Name, real>, path: Path, j: nat, i: nat)
    requires Left(bw, LinkAt(net, path, i)) >= 1.0
    ensures LinkOk(net, bw, Requirements(ONE, ONE, ONE), path, j, i)
  {
  }

  lemma WiredIsSearchable(net: Net, root: Name)
    requires Wired(net) && root in net.wire
    ensures Searchable(SetupOf(net, root))
  {
    NeighboursClosed(net);
  }

  /** A path of four nodes with room on all of them and enough bandwidth suits. */
  lemma FourNodesSuit(net: Net, root: Name, s: Stock, a: Name, m: Name, u: Name)
    requires var path := [root, a, m, u];
             && Eligible(SetupOf(net, root), u, path)
             && HasRoom(s, REQUEST, a) && HasRoom(s, REQUEST, m)
             && forall i: nat :: i < 3 ==> Left(s.bw, LinkAt(net, path, i)) >= 1.0
    ensures var c, path := SetupOf(net, root), [root, a, m, u];
            Suits(c, s, u, path) && DuIndex(s, c.request, path) == 2
  {
    var c, path := SetupOf(net, root), [root, a, m, u];
    assert path[2] == m && DuIndex(s, c.request, path) == 2;
    forall i: nat | i < 3 ensures LinkOk(net, s.bw, c.reqs, path, 2, i) {
      LinkPasses(net, s.bw, path, 2, i);
    }
    assert HasRoom(s, c.request, path[2]);
  }

  lemma ShortestMayBeFound(net: Net, root: Name, ru: Name, path: Path)
    requires Wired(net) && root in net.wire && Shortest(Neighbours(net), root, ru, path)
    ensures MayBeFound(SetupOf(net, root), ru, path)
  {
    NeighboursClosed(net);
    var found := SomeResult(Neighbours(net), root, ru);
    assert Searched(SetupOf(net, root), ru, found);
  }

  // ---- room on a node ----

  /** What a piece of a Split asks for: 256Mi of memory and 150m of CPU. */
  const SPLIT_REQUEST := Request(268435456000, 150)

  /** A node must have more than a whole CPU left to take a piece, although 0.15 would pay for it. */
  lemma PieceNeedsACpu(s: Stock, n: Name)
    requires n in s.mem && n in s.cpu
    ensures HasRoom(s, SPLIT_REQUEST, n) <==> s.mem[n] > 268435456000 && s.cpu[n] > 1000
  {
    HasRoomIff(s, SPLIT_REQUEST, n);
    assert s.cpu[n] > 1000 ==> Separates(1, 150, s.cpu[n]);
    assert s.mem[n] > 268435456000 ==> Separates(268435456, 268435456000, s.mem[n]);
  }

  // ---- two nodes and one link ----

  function Pair(r: Name, u: Name): Net {
    Net(map[r := map[u := r], u := map[r := r]], map[r := 0.0])
  }

  lemma PairPaths(r: Name, u: Name, q: Path)
    requires r != u && Joins(Neighbours(Pair(r, u)), r, u, q)
    ensures |q| >= 2 && (Distinct(q) ==> q == [r, u])
  {
    if |q| > 2 {
      assert q[1] in Neighbours(Pair(r, u))[q[0]] && q[2] in Neighbours(Pair(r, u))[q[1]];
      assert q[2] == q[0];
    }
    if |q| == 2 {
      assert q == [q[0], q[1]];
    }
  }

  lemma PairShortest(r: Name, u: Name)
    requires r != u
    ensures Shortest(Neighbours(Pair(r, u)), r, u, [r, u]) && SimplePath(Pair(r, u), [r, u])
  {
    forall q | Joins(Neighbours(Pair(r, u)), r, u, q) ensures 2 <= |q| {
      PairPaths(r, u, q);
    }
  }

  /** The RU's own node would take the CU, and there is none for the DU. */
  lemma PairStrands(r: Name, u: Name, s: Stock)
    requires r != u && NO_NAME !in {r, u} && HasRoom(s, REQUEST, u) && Left(s.bw, r) >= 1.0
    ensures Wired(Pair(r, u)) && Strands(SetupOf(Pair(r, u), r), s, u, [r, u])
  {
    PairShortest(r, u);
    ShortestMayBeFound(Pair(r, u), r, u, [r, u]);
    assert LinkOk(Pair(r, u), s.bw, Requirements(ONE, ONE, ONE), [r, u], 1, 0);
  }

  /** There is nothing else the placement could do with this RU. */
  lemma PairHasNoEvent(r: Name, u: Name, s: Stock, e: Event)
    requires r != u && NO_NAME !in {r, u} && HasRoom(s, REQUEST, u) && Left(s.bw, r) >= 1.0
    ensures !Legal(SetupOf(Pair(r, u), r), s, u, e)
  {
    PairStrands(r, u, s);
    PairShortest(r, u);
    if Legal(SetupOf(Pair(r, u), r), s, u, e) {
      match e {
        case Skipped => assert false;
        case Placed(path, du) => PairPaths(r, u, path); assert false;
      }
    }
  }

  lemma PairGoesNoFurther(r: Name, u: Name, names: seq<Name>, s: Stock, events: seq<Event>, k: nat)
    requires r != u && NO_NAME !in {r, u} && 0 < k <= |names| && names[0] == u
    requires HasRoom(Reserve(s, REQUEST, names), REQUEST, u) && Left(s.bw, r) >= 1.0
    ensures !RanUpTo(SetupOf(Pair(r, u), r), names, s, events, k)
  {
    var c, reserved := SetupOf(Pair(r, u), r), Reserve(s, REQUEST, names);
    if RanUpTo(c, names, s, events, k) {
      ReserveKeys(s, REQUEST, names);
      assert LegalAt(c, reserved, names, events, 0);
      PairHasNoEvent(r, u, reserved, events[0]);
    }
  }

  /**
    Ample resources do not help: once the reservations have gone through, a first RU next to the core
    makes the placement panic, whatever order things are met in.
   */
  lemma NextToTheCorePanics(r: Name, u: Name, names: seq<Name>, s: Stock, before: seq<Fields>, outcome: Outcome,
                            events: seq<Event>, after: seq<Fields>, left: Stock)
    requires r != u && NO_NAME !in {r, u} && names != [] && names[0] == u
    requires HasRoom(Reserve(s, REQUEST, names), REQUEST, u) && Left(s.bw, r) >= 1.0
    requires ReservedUpTo(s, REQUEST, names, |names|)
    requires Finished(SetupOf(Pair(r, u), r), names, s, before, outcome, events, after, left)
    ensures outcome == NoDuPanic(0)
  {
    if |events| > 0 && !outcome.ReservationFailed? {
      PairGoesNoFurther(r, u, names, s, events, |events|);
    }
  }

  // ---- two routes that part after the CU ----

  /** The links r-a, a-b, a-d, b-u and d-u, named after one of their ends or, for the last, after `r`. */
  function Diamond(r: Name, a: Name, b: Name, d: Name, u: Name): Net {
    Net(map[r := map[a := a],
            a := map[r := a, b := b, d := d],
            b := map[a := b, u := u],
            d := map[a := d, u := r],
            u := map[b := u, d := r]],
        map[a := 0.0, b := 0.0, d := 0.0, u := 0.0, r := 0.0])
  }

  predicate Apart(r: Name, a: Name, b: Name, d: Name, u: Name) {
    && NO_NAME !in {r, a, b, d, u}
    && r != a && r != b && r != d && r != u && a != b && a != d && a != u && b != d && b != u && d != u
  }

  lemma DiamondEdges(r: Name, a: Name, b: Name, d: Name, u: Name, x: Name, y: Name)
    requires Apart(r, a, b, d, u)
    ensures var net := Diamond(r, a, b, d, u);
            Edge(net, x, y) ==>
              || ({x, y} == {r, a} && net.wire[x][y] == a) || ({x, y} == {a, b} && net.wire[x][y] == b)
              || ({x, y} == {a, d} && net.wire[x][y] == d) || ({x, y} == {b, u} && net.wire[x][y] == u)
              || ({x, y} == {d, u} && net.wire[x][y] == r)
  {
  }

  /** The link of an edge tells the edge. */
  lemma DiamondLinks(r: Name, a: Name, b: Name, d: Name, u: Name, x: Name, y: Name, v: Name, w: Name)
    requires Apart(r, a, b, d, u)
    requires var net := Diamond(r, a, b, d, u);
             Edge(net, x, y) && Edge(net, v, w) && net.wire[x][y] == net.wire[v][w]
    ensures (x == v && y == w) || (x == w && y == v)
  {
    DiamondEdges(r, a, b, d, u, x, y);
    DiamondEdges(r, a, b, d, u, v, w);
    assert {x, y} == {v, w};
    assert x in {v, w} && y in {v, w} && v in {x, y} && w in {x, y};
  }

  lemma DiamondWired(r: Name, a: Name, b: Name, d: Name, u: Name)
    requires Apart(r, a, b, d, u)
    ensures Wired(Diamond(r, a, b, d, u))
  {
    var net := Diamond(r, a, b, d, u);
    forall x, y | Edge(net, x, y)
      ensures Edge(net, y, x) && net.wire[x][y] == net.wire[y][x] && net.wire[x][y] in net.latency
    {
      DiamondEdges(r, a, b, d, u, x, y);
    }
    forall x, y, v, w | Edge(net, x, y) && Edge(net, v, w) && net.wire[x][y] == net.wire[v][w]
      ensures (x == v && y == w) || (x == w && y == v)
    {
      DiamondLinks(r, a, b, d, u, x, y, v, w);
    }
  }

  lemma DiamondShortest(r: Name, a: Name, b: Name, d: Name, u: Name, m: Name)
    requires Apart(r, a, b, d, u) && m in {b, d}
    ensures Shortest(Neighbours(Diamond(r, a, b, d, u)), r, u, [r, a, m, u])
    ensures SimplePath(Diamond(r, a, b, d, u), [r, a, m, u])
  {
    var g := Neighbours(Diamond(r, a, b, d, u));
    var path := [r, a, m, u];
    assert path[1] in g[path[0]] && path[2] in g[path[1]] && path[3] in g[path[2]];
    forall q | Joins(g, r, u, q) ensures 4 <= |q| {
      assert |q| > 1 ==> q[1] in g[q[0]];
      assert |q| > 2 ==> q[2] in g[q[1]];
    }
  }

  /** With room everywhere the DU may go on either of the two routes. */
  lemma DiamondPlaced(r: Name, a: Name, b: Name, d: Name, u: Name, m: Name, s: Stock)
    requires Apart(r, a, b, d, u) && m in {b, d} && HasRoom(s, REQUEST, a) && HasRoom(s, REQUEST, m)
    requires forall l :: l in {a, b, d, u, r} ==> Left(s.bw, l) >= 1.0
    ensures Legal(SetupOf(Diamond(r, a, b, d, u), r), s, u, Placed([r, a, m, u], 2))
  {
    var net := Diamond(r, a, b, d, u);
    var c, path := SetupOf(net, r), [r, a, m, u];
    DiamondWired(r, a, b, d, u);
    WiredIsSearchable(net, r);
    DiamondShortest(r, a, b, d, u, m);
    assert Eligible(c, u, path);
    forall i: nat | i < 3 ensures Left(s.bw, LinkAt(net, path, i)) >= 1.0 {
      StepIsEdge(net, path, i);
      DiamondEdges(r, a, b, d, u, path[i], path[i+1]);
    }
    FourNodesSuit(net, r, s, a, m, u);
    LegalIff(c, s, u, Placed(path, 2));
  }

  lemma DiamondRuns(r: Name, a: Name, b: Name, d: Name, u: Name, m: Name)
    requires Apart(r, a, b, d, u) && m in {b, d}
    ensures var net := Diamond(r, a, b, d, u);
            RanUpTo(SetupOf(net, r), [u], Equipped(net, Ample(net)), [Placed([r, a, m, u], 2)], 1)
  {
    var net := Diamond(r, a, b, d, u);
    var s := Equipped(net, Ample(net));
    RoomEverywhere(net, Ample(net), u);
    DiamondPlaced(r, a, b, d, u, m, Reserve(s, REQUEST, [u]));
    OneRuRuns(SetupOf(net, r), s, u, Placed([r, a, m, u], 2));
  }

  /**
    A pass whose status write is lost leaves a Split behind, and the next pass may place the RU on the
    other route and still finish: the Split keeps the nodes of the first placement.
   */
  lemma LostStatusMovesTheDu(r: Name, a: Name, b: Name, d: Name, u: Name, name: Name, ip: string)
    requires Apart(r, a, b, d, u)
    ensures var net := Diamond(r, a, b, d, u);
            var c, s := SetupOf(net, r), Equipped(net, Ample(net));
            && RanUpTo(c, [u], s, [Placed([r, a, b, u], 2)], 1)
            && RanUpTo(c, [u], s, [Placed([r, a, d, u], 2)], 1)
    ensures var passes := [SplitsPlacer.SyncFailed(SplitsPlacer.OneRu(name, u, a, b), 1, false)] +
                          [SplitsPlacer.Synced(SplitsPlacer.OneRu(name, u, a, d), true)];
            && SplitsPlacer.History(SplitsPlacer.Fresh(name, u, ip), passes)
            && !SplitsPlacer.Agrees(SplitsPlacer.After(SplitsPlacer.Fresh(name, u, ip), passes).splits, ip,
                                    SplitsPlacer.OneRu(name, u, a, d))
  {
    DiamondRuns(r, a, b, d, u, b);
    DiamondRuns(r, a, b, d, u, d);
    SplitsPlacer.LostStatusDisagrees(name, u, a, b, a, d, ip);
  }

  // ---- a short route that is too narrow, and a detour that is not ----

  /** The links r-x, x-y, x-u and y-u, named after one of their ends or, for the last, after `r`. */
  function Kite(r: Name, x: Name, y: Name, u: Name): Net {
    Net(map[r := map[x := x],
            x := map[r := x, y := y, u := u],
            y := map[x := y, u := r],
            u := map[x := u, y := r]],
        map[x := 0.0, y := 0.0, u := 0.0, r := 0.0])
  }

  /** All links are wide but x-u. */
  function Narrow(r: Name, x: Name, y: Name, u: Name): map<Name, real> {
    map[x := 10.0, y := 10.0, u := 0.5, r := 10.0]
  }

  predicate Differ(r: Name, x: Name, y: Name, u: Name) {
    NO_NAME !in {r, x, y, u} && r != x && r != y && r != u && x != y && x != u && y != u
  }

  lemma KiteEdges(r: Name, x: Name, y: Name, u: Name, v: Name, w: Name)
    requires Differ(r, x, y, u)
    ensures var net := Kite(r, x, y, u);
            Edge(net, v, w) ==>
              || ({v, w} == {r, x} && net.wire[v][w] == x) || ({v, w} == {x, y} && net.wire[v][w] == y)
              || ({v, w} == {x, u} && net.wire[v][w] == u) || ({v, w} == {y, u} && net.wire[v][w] == r)
  {
  }

  lemma KiteWired(r: Name, x: Name, y: Name, u: Name)
    requires Differ(r, x, y, u)
    ensures Wired(Kite(r, x, y, u))
  {
    var net := Kite(r, x, y, u);
    forall a, b | Edge(net, a, b)
      ensures Edge(net, b, a) && net.wire[a][b] == net.wire[b][a] && net.wire[a][b] in net.latency
    {
      KiteEdges(r, x, y, u, a, b);
    }
    forall a, b, v, w | Edge(net, a, b) && Edge(net, v, w) && net.wire[a][b] == net.wire[v][w]
      ensures (a == v && b == w) || (a == w && b == v)
    {
      KiteEdges(r, x, y, u, a, b);
      KiteEdges(r, x, y, u, v, w);
      assert {a, b} == {v, w};
      assert a in {v, w} && b in {v, w} && v in {a, b} && w in {a, b};
    }
  }

  lemma KitePaths(r: Name, x: Name, y: Name, u: Name, q: Path)
    requires Differ(r, x, y, u) && Joins(Neighbours(Kite(r, x, y, u)), r, u, q)
    ensures |q| >= 3 && q[1] == x && (|q| == 3 ==> q == [r, x, u])
  {
    var g := Neighbours(Kite(r, x, y, u));
    assert |q| > 1 ==> q[1] in g[q[0]];
  }

  lemma KiteDetour(r: Name, x: Name, y: Name, u: Name)
    requires Differ(r, x, y, u)
    ensures Eligible(SetupOf(Kite(r, x, y, u), r), u, [r, x, y, u])
  {
    var g := Neighbours(Kite(r, x, y, u));
    var path := [r, x, y, u];
    assert path[1] in g[path[0]] && path[2] in g[path[1]] && path[3] in g[path[2]];
    forall q | Joins(g, r, u, q) ensures 4 <= |q| + 1 {
      KitePaths(r, x, y, u, q);
    }
  }

  lemma KiteDetourSuits(r: Name, x: Name, y: Name, u: Name, s: Stock)
    requires Differ(r, x, y, u) && s.bw == Narrow(r, x, y, u) && HasRoom(s, REQUEST, x) && HasRoom(s, REQUEST, y)
    ensures var c, path := SetupOf(Kite(r, x, y, u), r), [r, x, y, u];
            Suits(c, s, u, path) && DuIndex(s, c.request, path) == 2
  {
    var net, path := Kite(r, x, y, u), [r, x, y, u];
    KiteDetour(r, x, y, u);
    assert LinkAt(net, path, 0) == x && LinkAt(net, path, 1) == y && LinkAt(net, path, 2) == r;
    FourNodesSuit(net, r, s, x, y, u);
  }

  lemma KiteShortestNarrow(r: Name, x: Name, y: Name, u: Name, s: Stock)
    requires Differ(r, x, y, u) && s.bw == Narrow(r, x, y, u)
    ensures NoShortestFeasible(SetupOf(Kite(r, x, y, u), r), s, u)
  {
    var net, short := Kite(r, x, y, u), [r, x, u];
    var g := Neighbours(net);
    assert short[1] in g[short[0]] && short[2] in g[short[1]] && Joins(g, r, u, short);
    assert LinkAt(net, short, 1) == u;
    forall q | Shortest(g, r, u, q) ensures !Feasible(net, s, REQUEST, Requirements(ONE, ONE, ONE), q) {
      KitePaths(r, x, y, u, q);
      assert q == short && !LinkOk(net, s.bw, Requirements(ONE, ONE, ONE), q, DuIndex(s, REQUEST, q), 1);
    }
  }

  /** The order in which neighbours are met alone decides whether the RU is placed. */
  lemma KiteOrderDecides(r: Name, x: Name, y: Name, u: Name)
    requires Differ(r, x, y, u)
    ensures var net := Kite(r, x, y, u);
            var c, s := SetupOf(net, r), Equipped(net, Narrow(r, x, y, u));
            && RanUpTo(c, [u], s, [Placed([r, x, y, u], 2)], 1)
            && RanUpTo(c, [u], s, [Skipped], 1)
  {
    var net := Kite(r, x, y, u);
    var c, s, t := SetupOf(net, r), Equipped(net, Narrow(r, x, y, u)),
                   Reserve(Equipped(net, Narrow(r, x, y, u)), REQUEST, [u]);
    RoomEverywhere(net, Narrow(r, x, y, u), u);
    KiteWired(r, x, y, u);
    WiredIsSearchable(net, r);
    KiteDetourSuits(r, x, y, u, t);
    KiteShortestNarrow(r, x, y, u, t);
    OrderDecidesIff(c, t, u, [r, x, y, u]);
    OneRuRuns(c, s, u, Placed([r, x, y, u], 2));
    OneRuRuns(c, s, u, Skipped);
  }

  lemma OneHeldOver(f: Fields)
    requires !Unplaced(f)
    ensures HeldOver([f], [Skipped], 1) == 1 && PlacedCount([Skipped]) == 0
  {
    assert [Skipped][..0] == [];
    assert HeldOver([f], [Skipped], 0) == 0;
  }

  lemma SkippedReports(c: Setup, s: Stock, u: Name, f: Fields)
    requires RanUpTo(c, [u], s, [Skipped], 1) && !Unplaced(f)
    ensures Reports(c, [u], s, [f], Completed, [Skipped], Status(1, StockAfter(c, [u], s, [Skipped]).bw))
    ensures PlacedCount([Skipped]) == 0
  {
    CompletedRemains(c, [u], s, [Skipped]);
    OneHeldOver(f);
  }

  /**
    The reported count may exceed the chains placed, on a cluster that does not change: a pass places the
    RU but its last write is lost; the next pass meets neighbours in another order, skips the RU, and counts
    it by the fields it came with.
   */
  lemma LostFinishedOvercounts(r: Name, x: Name, y: Name, u: Name, name: Name, ip: string)
    requires Differ(r, x, y, u)
    ensures var pass := SplitsPlacer.Synced(SplitsPlacer.OneRu(name, u, x, y), false);
            && SplitsPlacer.Possible(SplitsPlacer.Fresh(name, u, ip), pass)
            && SplitsPlacer.Open(SplitsPlacer.Apply(SplitsPlacer.Fresh(name, u, ip), pass))
            && SplitsPlacer.Apply(SplitsPlacer.Fresh(name, u, ip), pass).placer ==
                 SplitsPlacer.Requested(name, u, x, y, ip, SplitsPlacer.Unset)
    ensures var net := Kite(r, x, y, u);
            var c, s := SetupOf(net, r), Equipped(net, Narrow(r, x, y, u));
            && RanUpTo(c, [u], s, [Placed([r, x, y, u], 2)], 1)
            && Reports(c, [u], s, [Fields(x, y, [r, x, y, u], DSG8_KEY)], Completed, [Skipped],
                       Status(1, StockAfter(c, [u], s, [Skipped]).bw))
            && PlacedCount([Skipped]) == 0
  {
    SplitsPlacer.LostFinished(name, u, x, y, ip);
    KiteOrderDecides(r, x, y, u);
    SkippedReports(SetupOf(Kite(r, x, y, u), r), Equipped(Kite(r, x, y, u), Narrow(r, x, y, u)), u,
                   Fields(x, y, [r, x, y, u], DSG8_KEY));
  }
}
