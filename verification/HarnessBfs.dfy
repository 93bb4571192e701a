/**
  The measurement harness's breadth-first search and hop count, over any adjacency lists.
  Here a node is marked visited when it is first expanded, and the search stops at its destination.
 */
module HarnessBfs {
  import opened Graphs
  import opened MultiPathSearch
  import opened Options

  type Adjacency = map<Name, seq<Name>>

  function AsGraph(lists: Adjacency): Graph {
    map v | v in lists :: set n | n in lists[v]
  }

  /** Every unvisited neighbour of a visited node waits in the queue, on a path short enough. */
  ghost predicate Frontier(g: Graph, start: Name, queue: seq<Path>, visited: set<Name>) {
    forall q, n :: Joins(g, start, Last(q), q) && Last(q) in visited && n in g[Last(q)] && n !in visited ==>
      Waiting(queue, n, |q| + 1)
  }

  ghost predicate Waiting(queue: seq<Path>, n: Name, k: nat) {
    exists p :: p in queue && Last(p) == n && |p| <= k
  }

  ghost predicate Inv(g: Graph, start: Name, queue: seq<Path>, visited: set<Name>) {
    && Sorted(queue)
    && (forall p :: p in queue ==> |p| <= |queue[0]| + 1 && Joins(g, start, Last(p), p))
    && Frontier(g, start, queue, visited)
    && (start in visited || (visited == {} && queue == [[start]]))
  }

  /** A walk that leaves the visited nodes does so along some edge. */
  lemma {:induction false} FirstExit(q: Path, visited: set<Name>) returns (i: nat)
    requires q != [] && q[0] in visited && Last(q) !in visited
    ensures i + 1 < |q| && q[i] in visited && q[i+1] !in visited
    decreases |q|
  {
    if q[1] !in visited {
      i := 0;
    } else {
      i := FirstExit(q[1..], visited);
      i := i + 1;
    }
  }

  lemma ExitWaits(g: Graph, start: Name, queue: seq<Path>, visited: set<Name>, q: Path)
    requires Inv(g, start, queue, visited) && start in visited
    requires Joins(g, start, Last(q), q) && Last(q) !in visited
    ensures queue != [] && |queue[0]| <= |q|
  {
    var i := FirstExit(q, visited);
    SubWalk(g, q, 0, i);
    assert q[i+1] in g[q[i]];
    assert Last(q[0..i+1]) == q[i];
    assert Waiting(queue, q[i+1], |q[0..i+1]| + 1);
    var p :| p in queue && |p| <= i + 2;
  }

  /** The head of the queue is a shortest walk whenever it ends in a node not expanded before. */
  lemma HeadShortest(g: Graph, start: Name, queue: seq<Path>, visited: set<Name>)
    requires Inv(g, start, queue, visited) && queue != [] && Last(queue[0]) !in visited
    ensures Shortest(g, start, Last(queue[0]), queue[0])
  {
    assert queue[0] in queue;
    forall q | Joins(g, start, Last(queue[0]), q) ensures |queue[0]| <= |q| {
      if start in visited {
        ExitWaits(g, start, queue, visited, q);
      }
    }
  }

  lemma DropHead(g: Graph, start: Name, queue: seq<Path>, visited: set<Name>)
    requires Inv(g, start, queue, visited) && queue != [] && Last(queue[0]) in visited
    ensures Inv(g, start, queue[1..], visited)
  {
    TailSorted(queue);
    assert queue == [queue[0]] + queue[1..];
    forall q, n | Joins(g, start, Last(q), q) && Last(q) in visited && n in g[Last(q)] && n !in visited
      ensures Waiting(queue[1..], n, |q| + 1)
    {
      assert Waiting(queue, n, |q| + 1);
    }
  }

  lemma ExpandFrontier(g: Graph, start: Name, queue: seq<Path>, visited: set<Name>, order: seq<Name>)
    requires Inv(g, start, queue, visited) && queue != [] && Last(queue[0]) in g && Last(queue[0]) !in visited
    requires forall n :: n in order <==> n in g[Last(queue[0])]
    ensures Frontier(g, start, queue[1..] + Kids(queue[0], order), visited + {Last(queue[0])})
  {
    var p := queue[0];
    HeadShortest(g, start, queue, visited);
    KidsAre(p, order);
    assert queue == [p] + queue[1..];
    var queue', visited' := queue[1..] + Kids(p, order), visited + {Last(p)};
    forall q, n | Joins(g, start, Last(q), q) && Last(q) in visited' && n in g[Last(q)] && n !in visited'
      ensures Waiting(queue', n, |q| + 1)
    {
      if Last(q) == Last(p) {
        assert p + [n] in queue' && Last(p + [n]) == n;
      } else {
        assert Waiting(queue, n, |q| + 1);
        var r :| r in queue && Last(r) == n && |r| <= |q| + 1;
        assert r in queue';
      }
    }
  }

  lemma KidsJoin(g: Graph, start: Name, p: Path, order: seq<Name>)
    requires Closed(g) && Joins(g, start, Last(p), p) && forall n :: n in order ==> n in g[Last(p)]
    ensures forall q :: q in Kids(p, order) ==> Joins(g, start, Last(q), q)
  {
    forall q | q in Kids(p, order) ensures Joins(g, start, Last(q), q) {
      KidIs(p, order, q);
      Extend(g, p, Last(q));
      assert q == p + [Last(q)];
    }
  }

  lemma ExpandHead(g: Graph, start: Name, queue: seq<Path>, visited: set<Name>, order: seq<Name>)
    requires Closed(g) && Inv(g, start, queue, visited)
    requires queue != [] && Last(queue[0]) in g && Last(queue[0]) !in visited
    requires forall n :: n in order <==> n in g[Last(queue[0])]
    ensures Inv(g, start, queue[1..] + Kids(queue[0], order), visited + {Last(queue[0])})
  {
    ExpandFrontier(g, start, queue, visited, order);
    TailSorted(queue);
    assert queue[0] in queue;
    ServeHead(queue, order);
    KidsJoin(g, start, queue[0], order);
  }

  lemma Exhausted(g: Graph, start: Name, visited: set<Name>, dest: Name)
    requires Inv(g, start, [], visited) && dest !in visited
    ensures !Reachable(g, start, dest)
  {
    if q :| Joins(g, start, dest, q) {
      ExitWaits(g, start, [], visited, q);
    }
  }

  method EnqueueAll(queue: seq<Path>, path: Path, ns: seq<Name>) returns (longer: seq<Path>)
    ensures longer == queue + Kids(path, ns)
  {
    longer := queue;
    for i := 0 to |ns|
      invariant longer == queue + Kids(path, ns[..i])
    {
      KidsSnoc(queue, path, ns[..i], ns[i]);
      assert ns[..i+1] == ns[..i] + [ns[i]];
      longer := longer + [path + [ns[i]]];
    }
    assert ns[..|ns|] == ns;
  }

  /** `Nothing` is falling off the end of the search; `KeyError` is looking up a node without a list. */
  datatype Answer = Found(path: Path) | Nothing | KeyError

  method FindShortestPath(lists: Adjacency, start: Name, dest: Name) returns (answer: Answer)
    requires Closed(AsGraph(lists))
    ensures start in lists ==> Answers(AsGraph(lists), start, dest, answer)
    ensures start !in lists ==> answer == if start == dest then Found([start]) else KeyError
  {
    ghost var g := AsGraph(lists);
    var queue: seq<Path> := [[start]];
    var visited := {};
    while |queue| > 0
      invariant start in lists ==> Inv(g, start, queue, visited)
      invariant start !in lists ==> queue == [[start]]
      invariant dest !in visited && visited <= g.Keys
      decreases g.Keys - visited, |queue|
    {
      var path := queue[0];
      assert path in queue;
      var v := path[|path|-1];
      if v == dest {
        if start in lists {
          HeadShortest(g, start, queue, visited);
        }
        return Found(path);
      }
      if v !in visited {
        if v !in lists {
          return KeyError;
        }
        ExpandHead(g, start, queue, visited, lists[v]);
        queue := EnqueueAll(queue[1..], path, lists[v]);
        visited := visited + {v};
      } else {
        DropHead(g, start, queue, visited);
        queue := queue[1..];
      }
    }
    Exhausted(g, start, visited, dest);
    return Nothing;
  }

  /** From a node of the graph: a shortest path, or nothing exactly if there is no path. */
  ghost predicate Answers(g: Graph, start: Name, dest: Name, answer: Answer) {
    match answer
    case Found(path) => Shortest(g, start, dest, path)
    case Nothing => !Reachable(g, start, dest)
    case KeyError => false
  }

  /** Both searches agree on reachability and on the length of the first path they report. */
  lemma SearchesAgree(lists: Adjacency, root: Name, target: Name, found: seq<Path>, plain: Answer)
    requires Result(AsGraph(lists), root, target, found) && Answers(AsGraph(lists), root, target, plain)
    ensures plain.Found? <==> found != []
    ensures plain.Found? ==> |plain.path| == |found[0]|
  {
    FoundIffReachable(AsGraph(lists), root, target, found);
  }

  // ---- hop counting ----

  datatype Placement = Placement(cu: Name, du: Name, ru: Name)

  ghost predicate Countable(g: Graph, root: Name, p: Placement) {
    Reachable(g, root, p.cu) && Reachable(g, p.cu, p.du) && Reachable(g, p.du, p.ru)
  }

  ghost function Hops(g: Graph, root: Name, p: Placement): nat
    requires Countable(g, root, p)
  {
    Dist(g, root, p.cu) + Dist(g, p.cu, p.du) + Dist(g, p.du, p.ru)
  }

  /** A walk from the root to the RU that comes by the CU and then by the DU. */
  ghost predicate Visits(g: Graph, root: Name, p: Placement, walk: Path) {
    Joins(g, root, p.ru, walk) && exists i: nat, j: nat :: i <= j < |walk| && walk[i] == p.cu && walk[j] == p.du
  }

  lemma VisitIsLong(g: Graph, root: Name, p: Placement, walk: Path)
    requires Visits(g, root, p, walk)
    ensures Countable(g, root, p) && Hops(g, root, p) + 1 <= |walk|
  {
    var i: nat, j: nat :| i <= j < |walk| && walk[i] == p.cu && walk[j] == p.du;
    SubWalk(g, walk, 0, i);
    SubWalk(g, walk, i, j);
    SubWalk(g, walk, j, |walk| - 1);
  }

  lemma ShortWalk(g: Graph, s: Name, t: Name) returns (p: Path)
    requires Reachable(g, s, t)
    ensures Joins(g, s, t, p) && |p| == Dist(g, s, t) + 1
  {
    var d := Dist(g, s, t);
    p :| Shortest(g, s, t, p) && |p| == d + 1;
  }

  /** Two walks that meet, as one walk that comes by where they meet. */
  lemma Glue(g: Graph, s: Name, m: Name, t: Name, p: Path, q: Path) returns (walk: Path)
    requires Joins(g, s, m, p) && Joins(g, m, t, q)
    ensures Joins(g, s, t, walk) && |walk| == |p| + |q| - 1 && p <= walk
  {
    Splice(g, p, q);
    walk := p + q[1..];
  }

  lemma ShortVisit(g: Graph, root: Name, p: Placement) returns (walk: Path)
    requires Countable(g, root, p)
    ensures Visits(g, root, p, walk) && |walk| == Hops(g, root, p) + 1
  {
    var a := ShortWalk(g, root, p.cu);
    var b := ShortWalk(g, p.cu, p.du);
    var c := ShortWalk(g, p.du, p.ru);
    var ab := Glue(g, root, p.cu, p.du, a, b);
    walk := Glue(g, root, p.du, p.ru, ab, c);
    assert walk[|a|-1] == ab[|a|-1] == p.cu && walk[|ab|-1] == p.du;
  }

  /** The count is the fewest hops of a walk from the root by the CU and the DU to the RU, if there is one. */
  lemma HopsAreFewest(g: Graph, root: Name, p: Placement)
    ensures Countable(g, root, p) <==> exists walk :: Visits(g, root, p, walk)
    ensures Countable(g, root, p) ==> exists walk :: Visits(g, root, p, walk) && |walk| - 1 == Hops(g, root, p)
    ensures Countable(g, root, p) ==> forall walk :: Visits(g, root, p, walk) ==> Hops(g, root, p) <= |walk| - 1
  {
    forall walk | Visits(g, root, p, walk) ensures Countable(g, root, p) && Hops(g, root, p) <= |walk| - 1 {
      VisitIsLong(g, root, p, walk);
    }
    if Countable(g, root, p) {
      var walk := ShortVisit(g, root, p);
      assert Visits(g, root, p, walk) && |walk| - 1 == Hops(g, root, p);
    }
  }

  ghost predicate Measured(g: Graph, root: Name, p: Placement, hops: nat) {
    Countable(g, root, p) && hops == Hops(g, root, p)
  }

  lemma ShortestLength(g: Graph, s: Name, t: Name, p: Path)
    requires Shortest(g, s, t, p)
    ensures Reachable(g, s, t) && |p| == Dist(g, s, t) + 1
  {
    var d := Dist(g, s, t);
    var q :| Shortest(g, s, t, q) && |q| == d + 1;
  }

  /** The length of one leg; `None` is an error, for want of a path or of a node's list. */
  method Leg(lists: Adjacency, a: Name, b: Name) returns (hops: Option<nat>)
    requires Closed(AsGraph(lists))
    ensures a in lists ==> (hops.Some? <==> Reachable(AsGraph(lists), a, b))
    ensures a in lists && hops.Some? ==> hops.value == Dist(AsGraph(lists), a, b)
    ensures a !in lists ==> hops == if a == b then Some(0) else None
  {
    var answer := FindShortestPath(lists, a, b);
    if !answer.Found? {
      return None;
    }
    if a in lists {
      ShortestLength(AsGraph(lists), a, b, answer.path);
    }
    return Some(|answer.path| - 1);
  }

  method ChainHops(lists: Adjacency, root: Name, p: Placement) returns (hops: Option<nat>)
    requires root in lists && Closed(AsGraph(lists))
    ensures hops.Some? ==> Measured(AsGraph(lists), root, p, hops.value)
    ensures hops.None? ==> !Countable(AsGraph(lists), root, p)
  {
    var coreCu := Leg(lists, root, p.cu);
    var cuDu := Leg(lists, p.cu, p.du);
    var duRu := Leg(lists, p.du, p.ru);
    if coreCu.None? || cuDu.None? || duRu.None? {
      return None;
    }
    return Some(coreCu.value + cuDu.value + duRu.value);
  }

  ghost predicate AllMeasured(g: Graph, root: Name, placement: map<Name, Placement>, count: map<Name, nat>) {
    count.Keys <= placement.Keys &&
    forall v {:trigger count[v]} :: v in count ==> Measured(g, root, placement[v], count[v])
  }

  lemma OneMoreMeasured(g: Graph, root: Name, placement: map<Name, Placement>, count: map<Name, nat>, v: Name,
                        hops: nat)
    requires AllMeasured(g, root, placement, count) && v in placement && Measured(g, root, placement[v], hops)
    ensures AllMeasured(g, root, placement, count[v := hops])
  {
  }

  /** `count_hops`; `None` is the error raised when a leg has no path or starts off the graph. */
  method CountHops(lists: Adjacency, root: Name, placement: map<Name, Placement>)
    returns (hops: Option<map<Name, nat>>)
    requires root in lists && Closed(AsGraph(lists))
    ensures hops.None? ==> exists v :: v in placement && !Countable(AsGraph(lists), root, placement[v])
    ensures hops.Some? ==> hops.value.Keys == placement.Keys
    ensures hops.Some? ==> AllMeasured(AsGraph(lists), root, placement, hops.value)
  {
    var count: map<Name, nat> := map[];
    var todo := placement.Keys;
    while todo != {}
      invariant todo <= placement.Keys && count.Keys == placement.Keys - todo
      invariant AllMeasured(AsGraph(lists), root, placement, count)
      decreases todo
    {
      var v :| v in todo;
      var hopsOfV := ChainHops(lists, root, placement[v]);
      if hopsOfV.None? {
        return None;
      }
      OneMoreMeasured(AsGraph(lists), root, placement, count, v, hopsOfV.value);
      count := count[v := hopsOfV.value];
      todo := todo - {v};
    }
    return Some(count);
  }

  /**
    The harness measures a placed chain, whose CU and DU sit on its path, at no fewer hops than the
    distance to the RU and no more than the path has; so the two agree on shortest paths.
   */
  lemma HopsOfChain(g: Graph, root: Name, ru: Name, path: Path, c: nat, d: nat)
    requires Joins(g, root, ru, path) && c <= d < |path|
    ensures var p := Placement(path[c], path[d], ru);
            Reachable(g, root, ru) && Countable(g, root, p) &&
            Dist(g, root, ru) <= Hops(g, root, p) <= |path| - 1
    ensures Shortest(g, root, ru, path) ==> Hops(g, root, Placement(path[c], path[d], ru)) == |path| - 1
  {
    SubWalk(g, path, 0, c);
    SubWalk(g, path, c, d);
    SubWalk(g, path, d, |path| - 1);
    Triangle(g, root, path[c], path[d]);
    Triangle(g, root, path[d], ru);
    if Shortest(g, root, ru, path) {
      ShortestLength(g, root, ru, path);
    }
  }
}
