/**
  What the multi-path breadth-first search keeps true.  A run is described by the paths
  already taken from the queue (`done`, in order) and the paths still in it.
  Nodes are marked visited when a path ending in them is dequeued, not when it is enqueued.
 */
module MultiPathSearch {
  import opened Graphs

  datatype Search = Search(done: seq<Path>, queue: seq<Path>, visited: set<Name>, found: seq<Path>)

  function Start(root: Name): Search { Search([], [[root]], {}, []) }

  /** Has `p` ever been put in the queue? */
  predicate Enqueued(s: Search, p: Path) { p in s.done || p in s.queue }

  /** The extensions of `p` by the nodes of `order`. */
  function Kids(p: Path, order: seq<Name>): seq<Path> {
    if order == [] then []
    else Kids(p, order[..|order|-1]) + [p + [order[|order|-1]]]
  }

  lemma {:induction false} KidsAre(p: Path, order: seq<Name>)
    ensures |Kids(p, order)| == |order|
    ensures forall q :: q in Kids(p, order) ==> |q| == |p| + 1 && Parent(q) == p && Last(q) in order
    ensures forall n :: n in order ==> p + [n] in Kids(p, order)
    decreases |order|
  {
    if order == [] {
    } else {
      var k := |order| - 1;
      KidsAre(p, order[..k]);
      assert Parent(p + [order[k]]) == p && order == order[..k] + [order[k]];
    }
  }

  lemma KidIs(p: Path, order: seq<Name>, q: Path)
    requires q in Kids(p, order)
    ensures |q| == |p| + 1 && Parent(q) == p && Last(q) in order && q == p + [Last(q)]
  {
    KidsAre(p, order);
  }

  /** One turn of the outer loop; `order` is the order in which the fresh neighbours were met. */
  ghost predicate Step(g: Graph, target: Name, s: Search, order: seq<Name>, s': Search) {
    && s.queue != [] && Last(s.queue[0]) in g
    && var p := s.queue[0];
       var u := Last(p);
       && s'.visited == s.visited + {u}
       && s'.done == s.done + [p]
       && Distinct(order)
       && (forall n :: n in order <==> n in g[u] && n !in s'.visited)
       && s'.queue == s.queue[1..] + Kids(p, order)
       && s'.found == if u == target then s.found + [p] else s.found
  }

  /** Dequeued paths that end in `target`, in order. */
  function EndingAt(done: seq<Path>, target: Name): seq<Path> {
    if done == [] then []
    else
      var p := done[|done|-1];
      var before := EndingAt(done[..|done|-1], target);
      if Last(p) == target then before + [p] else before
  }

  // ---- the invariant, in four parts ----

  ghost predicate SimpleFrom(g: Graph, root: Name, p: Path) {
    Walk(g, p) && p[0] == root && Distinct(p)
  }

  ghost predicate InnerVisited(p: Path, visited: set<Name>) {
    forall i :: 0 <= i < |p| - 1 ==> p[i] in visited
  }

  ghost predicate Witnessed(done: seq<Path>, v: Name) {
    exists p :: p in done && Last(p) == v
  }

  /** Enqueued paths are simple walks from the root whose inner nodes are visited. */
  ghost predicate Simple(g: Graph, root: Name, s: Search) {
    && Enqueued(s, [root])
    && (forall p :: Enqueued(s, p) ==> SimpleFrom(g, root, p) && InnerVisited(p, s.visited))
    && (forall p :: Enqueued(s, p) && |p| > 1 ==> Parent(p) in s.done)
    && (forall p :: p in s.done ==> Last(p) in s.visited)
    && (forall v :: v in s.visited ==> Witnessed(s.done, v))
  }

  ghost predicate Sorted(ps: seq<Path>) {
    forall i, j :: 0 <= i < j < |ps| ==> |ps[i]| <= |ps[j]|
  }

  /** The queue is served in order of length and spans at most two lengths. */
  ghost predicate Ordered(s: Search) {
    && Sorted(s.done) && Sorted(s.queue)
    && (forall p, q :: p in s.done && q in s.queue ==> |p| <= |q|)
    && (forall p :: p in s.queue ==> |p| <= |s.queue[0]| + 1)
  }

  /** Nothing is enqueued twice. */
  ghost predicate Once(s: Search) {
    Distinct(s.done) && Distinct(s.queue) && forall p :: p in s.done ==> p !in s.queue
  }

  /** No enqueued path is more than one hop longer than a shortest walk to its end. */
  ghost predicate Near(g: Graph, root: Name, s: Search) {
    forall p, q :: Enqueued(s, p) && Joins(g, root, Last(p), q) ==> |p| <= |q| + 1
  }

  /** A shortest walk is enqueued once its parent is done. */
  ghost predicate Complete(g: Graph, root: Name, s: Search) {
    forall q :: |q| > 1 && Shortest(g, root, Last(q), q) && Parent(q) in s.done ==> Enqueued(s, q)
  }

  ghost predicate Inv(g: Graph, root: Name, target: Name, s: Search) {
    && Simple(g, root, s)
    && Ordered(s)
    && Once(s)
    && Near(g, root, s)
    && Complete(g, root, s)
    && s.found == EndingAt(s.done, target)
  }

  lemma StartInv(g: Graph, root: Name, target: Name)
    requires root in g
    ensures Inv(g, root, target, Start(root))
  {
  }

  lemma EnqueuedGrows(g: Graph, target: Name, s: Search, order: seq<Name>, s': Search, q: Path)
    requires Step(g, target, s, order, s')
    ensures Enqueued(s', q) <==> Enqueued(s, q) || q in Kids(s.queue[0], order)
    ensures q in s.queue[1..] ==> q in s.queue
  {
    assert s.queue == [s.queue[0]] + s.queue[1..];
  }

  lemma KidSimple(g: Graph, root: Name, p: Path, n: Name, visited: set<Name>)
    requires Closed(g) && SimpleFrom(g, root, p) && InnerVisited(p, visited) && Last(p) in visited
    requires n in g[Last(p)] && n !in visited
    ensures SimpleFrom(g, root, p + [n]) && InnerVisited(p + [n], visited)
  {
    Extend(g, p, n);
    assert forall i :: 0 <= i < |p| ==> p[i] in visited;
  }

  lemma KidOfHead(g: Graph, root: Name, target: Name, s: Search, order: seq<Name>, s': Search, q: Path)
    requires Closed(g) && Step(g, target, s, order, s') && q in Kids(s.queue[0], order)
    requires SimpleFrom(g, root, s.queue[0]) && InnerVisited(s.queue[0], s.visited)
    ensures SimpleFrom(g, root, q) && InnerVisited(q, s'.visited) && Parent(q) in s'.done
  {
    KidIs(s.queue[0], order, q);
    KidSimple(g, root, s.queue[0], Last(q), s'.visited);
  }

  lemma DoneVisited(g: Graph, root: Name, target: Name, s: Search, order: seq<Name>, s': Search)
    requires Simple(g, root, s) && Step(g, target, s, order, s')
    ensures forall p :: p in s'.done ==> Last(p) in s'.visited
    ensures forall v :: v in s'.visited ==> Witnessed(s'.done, v)
  {
    assert s.queue[0] in s'.done;
    forall v | v in s'.visited ensures Witnessed(s'.done, v) {
      if v != Last(s.queue[0]) {
        assert Witnessed(s.done, v);
      }
    }
  }

  lemma StepSimple(g: Graph, root: Name, target: Name, s: Search, order: seq<Name>, s': Search)
    requires Closed(g) && Simple(g, root, s) && Step(g, target, s, order, s')
    ensures Simple(g, root, s')
  {
    EnqueuedGrows(g, target, s, order, s', [root]);
    assert Enqueued(s, s.queue[0]);
    forall q | Enqueued(s', q)
      ensures SimpleFrom(g, root, q) && InnerVisited(q, s'.visited) && (|q| > 1 ==> Parent(q) in s'.done)
    {
      EnqueuedGrows(g, target, s, order, s', q);
      if !Enqueued(s, q) {
        KidOfHead(g, root, target, s, order, s', q);
      }
    }
    DoneVisited(g, root, target, s, order, s');
  }

  lemma SortedConcat(a: seq<Path>, b: seq<Path>)
    requires Sorted(a) && Sorted(b) && forall p, q :: p in a && q in b ==> |p| <= |q|
    ensures Sorted(a + b)
  {
    var c := a + b;
    forall i, j | 0 <= i < j < |c| ensures |c[i]| <= |c[j]| {
      if i < |a| <= j {
        assert a[i] in a && b[j-|a|] in b;
      }
    }
  }

  lemma KidsSorted(p: Path, order: seq<Name>)
    ensures Sorted(Kids(p, order))
  {
    KidsAre(p, order);
    var kids := Kids(p, order);
    forall i | 0 <= i < |kids| ensures |kids[i]| == |p| + 1 {
      assert kids[i] in kids;
    }
  }

  lemma TailSorted(queue: seq<Path>)
    requires Sorted(queue) && queue != []
    ensures Sorted(queue[1..])
    ensures forall q :: q in queue[1..] ==> q in queue && |queue[0]| <= |q|
  {
  }

  /** Serving the head and queueing its extensions keeps a queue sorted and within two lengths. */
  lemma ServeHead(queue: seq<Path>, order: seq<Name>)
    requires Sorted(queue) && queue != [] && forall p :: p in queue ==> |p| <= |queue[0]| + 1
    ensures var queue' := queue[1..] + Kids(queue[0], order);
            && Sorted(queue')
            && (forall p :: p in queue' ==> |queue[0]| <= |p| <= |queue'[0]| + 1)
  {
    var rest, kids := queue[1..], Kids(queue[0], order);
    TailSorted(queue);
    KidsAre(queue[0], order);
    KidsSorted(queue[0], order);
    SortedConcat(rest, kids);
    forall p | p in rest + kids ensures |queue[0]| <= |p| <= |(rest + kids)[0]| + 1 {
      assert (rest + kids)[0] in rest + kids;
    }
  }

  lemma StepOrdered(g: Graph, target: Name, s: Search, order: seq<Name>, s': Search)
    requires Ordered(s) && Step(g, target, s, order, s')
    ensures Ordered(s')
  {
    var p := s.queue[0];
    assert p in s.queue;
    ServeHead(s.queue, order);
    SortedConcat(s.done, [p]);
    forall q | q in s'.done ensures |q| <= |p| {
      assert q in s.done || q == p;
    }
  }

  lemma KidsSnoc(queue: seq<Path>, p: Path, order: seq<Name>, n: Name)
    ensures queue + Kids(p, order) + [p + [n]] == queue + Kids(p, order + [n])
  {
    assert (order + [n])[..|order|] == order;
  }

  lemma {:induction false} KidsDistinct(p: Path, order: seq<Name>)
    requires Distinct(order)
    ensures Distinct(Kids(p, order))
  {
    if order == [] {
    } else {
      var k := |order| - 1;
      KidsDistinct(p, order[..k]);
      KidsAre(p, order[..k]);
      assert order[k] !in order[..k] && Last(p + [order[k]]) == order[k];
    }
  }

  lemma TailDistinct(queue: seq<Path>)
    requires Distinct(queue) && queue != []
    ensures Distinct(queue[1..]) && queue[0] !in queue[1..] && queue[0] in queue
    ensures forall q :: q in queue[1..] ==> q in queue
  {
  }

  lemma KidsFresh(g: Graph, root: Name, s: Search, order: seq<Name>, q: Path)
    requires Simple(g, root, s) && Once(s) && s.queue != [] && q in Kids(s.queue[0], order)
    ensures !Enqueued(s, q) && q != s.queue[0]
  {
    KidIs(s.queue[0], order, q);
    assert s.queue[0] in s.queue;
    assert Enqueued(s, s.queue[0]);
  }

  lemma StepOnce(g: Graph, root: Name, target: Name, s: Search, order: seq<Name>, s': Search)
    requires Simple(g, root, s) && Once(s) && Step(g, target, s, order, s')
    ensures Once(s')
  {
    var p, kids := s.queue[0], Kids(s.queue[0], order);
    TailDistinct(s.queue);
    KidsDistinct(p, order);
    forall q | q in kids ensures !Enqueued(s, q) && q != p {
      KidsFresh(g, root, s, order, q);
    }
    DistinctConcat(s.queue[1..], kids);
    DistinctConcat(s.done, [p]);
  }

  /** Every shortest walk strictly shorter than the queue's head has already been dequeued. */
  lemma {:induction false} ShorterDone(g: Graph, root: Name, s: Search, q: Path)
    requires Simple(g, root, s) && Ordered(s) && Complete(g, root, s)
    requires Shortest(g, root, Last(q), q)
    requires s.queue == [] || |q| < |s.queue[0]|
    ensures q in s.done
    decreases |q|
  {
    if |q| == 1 {
      assert q == [root];
    } else {
      ShortestPrefix(g, root, Last(q), q, |q| - 2);
      assert q[..|q|-2+1] == Parent(q);
      ShorterDone(g, root, s, Parent(q));
    }
    assert Enqueued(s, q);
  }

  /** A node with a walk shorter than the queue's head is visited. */
  lemma BelowHead(g: Graph, root: Name, s: Search, n: Name, r: Path)
    requires Simple(g, root, s) && Ordered(s) && Complete(g, root, s)
    requires Joins(g, root, n, r) && (s.queue == [] || |r| < |s.queue[0]|)
    ensures n in s.visited
  {
    ShortestExists(g, root, n, r);
    var w :| Shortest(g, root, n, w) && |w| <= |r|;
    ShorterDone(g, root, s, w);
  }

  lemma KidNear(g: Graph, root: Name, s: Search, q: Path, r: Path)
    requires Simple(g, root, s) && Ordered(s) && Complete(g, root, s) && s.queue != []
    requires |q| == |s.queue[0]| + 1 && Last(q) !in s.visited
    requires Joins(g, root, Last(q), r)
    ensures |q| <= |r| + 1
  {
    if |r| < |s.queue[0]| {
      BelowHead(g, root, s, Last(q), r);
    }
  }

  lemma StepNear(g: Graph, root: Name, target: Name, s: Search, order: seq<Name>, s': Search)
    requires Inv(g, root, target, s) && Step(g, target, s, order, s')
    ensures Near(g, root, s')
  {
    forall q, r | Enqueued(s', q) && Joins(g, root, Last(q), r) ensures |q| <= |r| + 1 {
      EnqueuedGrows(g, target, s, order, s', q);
      if !Enqueued(s, q) {
        KidIs(s.queue[0], order, q);
        KidNear(g, root, s, q, r);
      }
    }
  }

  /** A visited node ends a dequeued path, which is no longer than the head of the queue. */
  lemma VisitedWithin(g: Graph, root: Name, s: Search, v: Name) returns (r: Path)
    requires Simple(g, root, s) && Ordered(s) && s.queue != [] && v in s.visited
    ensures Joins(g, root, v, r) && |r| <= |s.queue[0]|
  {
    assert Witnessed(s.done, v);
    r :| r in s.done && Last(r) == v;
    assert Enqueued(s, r) && s.queue[0] in s.queue;
  }

  lemma NotYetVisited(g: Graph, root: Name, s: Search, q: Path)
    requires Simple(g, root, s) && Ordered(s) && s.queue != []
    requires Shortest(g, root, Last(q), q) && |q| == |s.queue[0]| + 1
    ensures Last(q) !in s.visited && Last(q) != Last(s.queue[0])
  {
    assert Enqueued(s, s.queue[0]);
    assert Joins(g, root, Last(s.queue[0]), s.queue[0]);
    if Last(q) in s.visited {
      var r := VisitedWithin(g, root, s, Last(q));
    }
  }

  lemma CompletesAt(g: Graph, root: Name, target: Name, s: Search, order: seq<Name>, s': Search, q: Path)
    requires Simple(g, root, s) && Ordered(s) && Step(g, target, s, order, s')
    requires |q| > 1 && Shortest(g, root, Last(q), q) && Parent(q) == s.queue[0]
    ensures Enqueued(s', q)
  {
    NotYetVisited(g, root, s, q);
    LastHop(g, q);
    KidsAre(s.queue[0], order);
    assert Last(q) in order;
    EnqueuedGrows(g, target, s, order, s', q);
  }

  lemma StepComplete(g: Graph, root: Name, target: Name, s: Search, order: seq<Name>, s': Search)
    requires Inv(g, root, target, s) && Step(g, target, s, order, s')
    ensures Complete(g, root, s')
  {
    forall q | |q| > 1 && Shortest(g, root, Last(q), q) && Parent(q) in s'.done ensures Enqueued(s', q) {
      EnqueuedGrows(g, target, s, order, s', q);
      if Parent(q) !in s.done {
        CompletesAt(g, root, target, s, order, s', q);
      }
    }
  }

  lemma StepInv(g: Graph, root: Name, target: Name, s: Search, order: seq<Name>, s': Search)
    requires Closed(g) && Inv(g, root, target, s) && Step(g, target, s, order, s')
    ensures Inv(g, root, target, s')
  {
    StepSimple(g, root, target, s, order, s');
    StepOrdered(g, target, s, order, s');
    StepOnce(g, root, target, s, order, s');
    StepNear(g, root, target, s, order, s');
    StepComplete(g, root, target, s, order, s');
    assert s'.done[..|s'.done|-1] == s.done;
  }

  lemma HeadOnGraph(g: Graph, root: Name, target: Name, s: Search)
    requires Inv(g, root, target, s) && s.queue != []
    ensures s.queue[0] != [] && Last(s.queue[0]) in g
  {
    assert Enqueued(s, s.queue[0]);
  }

  /** The layer invariant: what is visited while a path with `|queue[0]| - 1` hops is at the head. */
  lemma Layers(g: Graph, root: Name, target: Name, s: Search, v: Name)
    requires Inv(g, root, target, s) && s.queue != [] && Reachable(g, root, v)
    ensures Dist(g, root, v) < |s.queue[0]| - 1 ==> v in s.visited
    ensures v in s.visited ==> Dist(g, root, v) <= |s.queue[0]| - 1
  {
    var d := Dist(g, root, v);
    if d < |s.queue[0]| - 1 {
      var q :| Shortest(g, root, v, q) && |q| == d + 1;
      BelowHead(g, root, s, v, q);
    }
    if v in s.visited {
      var r := VisitedWithin(g, root, s, v);
    }
  }

  // ---- termination ----

  ghost function Remaining(g: Graph, s: Search): set<Path> {
    Universe(g.Keys, |g.Keys|) - set p | p in s.done
  }

  /** Although nodes are expanded again and the queue grows, each turn uses up a simple path for good. */
  lemma StepProgress(g: Graph, root: Name, target: Name, s: Search, order: seq<Name>, s': Search)
    requires Inv(g, root, target, s) && Step(g, target, s, order, s')
    ensures Remaining(g, s') < Remaining(g, s)
  {
    var p := s.queue[0];
    assert Enqueued(s, p) && p in s.queue;
    DistinctFits(p, g.Keys);
    InUniverse(p, g.Keys, |g.Keys|);
    assert p in Remaining(g, s) && p !in Remaining(g, s');
  }

  // ---- what a finished search has found ----

  /** A simple path to the target, at most one hop longer than the shortest. */
  ghost predicate NearShortest(g: Graph, root: Name, target: Name, p: Path) {
    && Joins(g, root, target, p) && Distinct(p)
    && forall q :: Joins(g, root, target, q) ==> |p| <= |q| + 1
  }

  /** The result promised by findPathsTo, for every order in which neighbours were met. */
  ghost predicate Result(g: Graph, root: Name, target: Name, found: seq<Path>) {
    && (forall p :: p in found ==> NearShortest(g, root, target, p))
    && (forall q :: Shortest(g, root, target, q) ==> q in found)
    && Sorted(found)
    && Distinct(found)
  }

  lemma {:induction false} EndingAtMember(done: seq<Path>, target: Name)
    ensures forall p :: p in EndingAt(done, target) <==> p in done && Last(p) == target
    decreases |done|
  {
    if done == [] {
    } else {
      EndingAtMember(done[..|done|-1], target);
      assert done == done[..|done|-1] + [done[|done|-1]];
    }
  }

  lemma {:induction false} EndingAtOrdered(done: seq<Path>, target: Name)
    requires Sorted(done) && Distinct(done)
    ensures Sorted(EndingAt(done, target)) && Distinct(EndingAt(done, target))
    decreases |done|
  {
    if done == [] {
    } else {
      var init, p := done[..|done|-1], done[|done|-1];
      EndingAtOrdered(init, target);
      EndingAtMember(init, target);
      forall i | 0 <= i < |EndingAt(init, target)|
        ensures |EndingAt(init, target)[i]| <= |p| && EndingAt(init, target)[i] != p
      {
        assert EndingAt(init, target)[i] in init;
      }
    }
  }

  lemma FinishedFinds(g: Graph, root: Name, target: Name, s: Search)
    requires Inv(g, root, target, s) && s.queue == []
    ensures Result(g, root, target, s.found)
  {
    EndingAtOrdered(s.done, target);
    EndingAtMember(s.done, target);
    forall p | p in s.found ensures Enqueued(s, p) && Last(p) == target {
    }
    forall q | Shortest(g, root, target, q) ensures q in s.found {
      ShorterDone(g, root, s, q);
    }
  }

  /** A finished search has visited exactly the nodes reachable from the root. */
  lemma FinishedVisits(g: Graph, root: Name, target: Name, s: Search, v: Name)
    requires Inv(g, root, target, s) && s.queue == []
    ensures v in s.visited <==> Reachable(g, root, v)
  {
    if v in s.visited {
      assert Witnessed(s.done, v);
      var p :| p in s.done && Last(p) == v;
      assert Enqueued(s, p) && Joins(g, root, v, p);
    }
    if q :| Joins(g, root, v, q) {
      BelowHead(g, root, s, v, q);
    }
  }

  /** Some path is found exactly when the target is reachable, and then the first one is shortest. */
  lemma FoundIffReachable(g: Graph, root: Name, target: Name, found: seq<Path>)
    requires Result(g, root, target, found)
    ensures found != [] <==> Reachable(g, root, target)
    ensures found != [] ==> Shortest(g, root, target, found[0])
    ensures forall p :: p in found && Reachable(g, root, target) ==>
              Dist(g, root, target) <= |p| - 1 <= Dist(g, root, target) + 1
  {
    if found != [] {
      assert found[0] in found;
    }
    if Reachable(g, root, target) {
      var d := Dist(g, root, target);
      var q :| Shortest(g, root, target, q) && |q| == d + 1;
      var i :| 0 <= i < |found| && found[i] == q;
      assert found[0] in found;
      assert |found[0]| <= |q|;
    }
  }

  // ---- runs of the search ----

  ghost predicate OneTurn(g: Graph, target: Name, s: Search, s': Search) {
    exists order :: Step(g, target, s, order, s')
  }

  /** The search may come to `s`. */
  least predicate Comes(g: Graph, root: Name, target: Name, s: Search) {
    s == Start(root) || exists s0 :: Comes(g, root, target, s0) && OneTurn(g, target, s0, s)
  }

  /** The search may end and return `found`. */
  ghost predicate Returns(g: Graph, root: Name, target: Name, found: seq<Path>) {
    exists s :: Comes(g, root, target, s) && s.queue == [] && s.found == found
  }

  /** A turn keeps the invariant and makes progress. */
  lemma TurnAdvances(g: Graph, root: Name, target: Name, s: Search, order: seq<Name>, s': Search)
    requires Closed(g) && Inv(g, root, target, s) && Step(g, target, s, order, s')
    ensures Inv(g, root, target, s') && Remaining(g, s') < Remaining(g, s) && OneTurn(g, target, s, s')
  {
    StepInv(g, root, target, s, order, s');
    StepProgress(g, root, target, s, order, s');
  }

  lemma OneMoreTurn(g: Graph, root: Name, target: Name, s0: Search, s: Search)
    requires Comes(g, root, target, s0) && OneTurn(g, target, s0, s)
    ensures Comes(g, root, target, s)
  {
  }
}
