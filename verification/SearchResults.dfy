/**
  Which results the multi-path search can have: every path that it may return is returned for some order
  of neighbours, and for some order it returns the shortest ones only.
 */
module SearchResults {
  import opened Graphs
  import opened MultiPathSearch

  /** `order` lists the set, each member once. */
  ghost predicate Orders(order: seq<Name>, names: set<Name>) {
    Distinct(order) && forall n :: n in order <==> n in names
  }

  /** The members of a set, each once, in some order. */
  lemma {:induction false} Enumerated(names: set<Name>) returns (order: seq<Name>)
    ensures Orders(order, names)
    decreases names
  {
    if names == {} {
      order := [];
    } else {
      var n :| n in names;
      var rest := Enumerated(names - {n});
      order := rest + [n];
    }
  }

  /** The nodes that the head of the queue may be extended by. */
  ghost function FreshNext(g: Graph, s: Search): set<Name>
    requires s.queue != [] && Last(s.queue[0]) in g
  {
    g[Last(s.queue[0])] - s.visited - {Last(s.queue[0])}
  }

  /** The search after one turn. */
  function TurnOf(s: Search, target: Name, order: seq<Name>): Search
    requires s.queue != []
  {
    var p := s.queue[0];
    Search(s.done + [p], s.queue[1..] + Kids(p, order), s.visited + {Last(p)},
           if Last(p) == target then s.found + [p] else s.found)
  }

  /** Whatever the search may come to keeps the invariant. */
  least lemma ComesInv(g: Graph, root: Name, target: Name, s: Search)
    requires Comes(g, root, target, s)
    requires Closed(g) && root in g
    ensures Inv(g, root, target, s)
  {
    if s == Start(root) {
      StartInv(g, root, target);
    } else {
      var s0 :| Comes(g, root, target, s0) && OneTurn(g, target, s0, s);
      ComesInv(g, root, target, s0);
      var order :| Step(g, target, s0, order, s);
      StepInv(g, root, target, s0, order, s);
    }
  }

  /** A search on a graph that has its root. */
  ghost predicate Going(g: Graph, root: Name, target: Name, s: Search) {
    Closed(g) && root in g && Comes(g, root, target, s)
  }

  lemma TakeTurn(g: Graph, root: Name, target: Name, s: Search, order: seq<Name>)
    requires Going(g, root, target, s) && s.queue != []
    requires Last(s.queue[0]) in g && Orders(order, FreshNext(g, s))
    ensures Going(g, root, target, TurnOf(s, target, order))
    ensures Remaining(g, TurnOf(s, target, order)) < Remaining(g, s)
  {
    var s' := TurnOf(s, target, order);
    ComesInv(g, root, target, s);
    TurnAdvances(g, root, target, s, order, s');
    OneMoreTurn(g, root, target, s, s');
  }

  /** What a turn enqueues, and what it does not if the target is visited. */
  lemma TurnEnqueues(g: Graph, target: Name, s: Search, order: seq<Name>, q: Path)
    requires s.queue != [] && Last(s.queue[0]) in g && Orders(order, FreshNext(g, s))
    ensures Enqueued(s, q) ==> Enqueued(TurnOf(s, target, order), q)
    ensures Enqueued(TurnOf(s, target, order), q) && !Enqueued(s, q) ==> Last(q) in FreshNext(g, s)
    ensures target in s.visited && Last(q) == target && Enqueued(TurnOf(s, target, order), q) ==> Enqueued(s, q)
  {
    assert s.queue == [s.queue[0]] + s.queue[1..];
    if q in Kids(s.queue[0], order) {
      KidIs(s.queue[0], order, q);
    }
  }

  /**
    Every search that has begun has a way to end.  What is enqueued will be dequeued; and once the target
    is visited no further path to it is enqueued.
   */
  lemma {:induction false} SearchEnds(g: Graph, root: Name, target: Name, s: Search) returns (t: Search)
    requires Going(g, root, target, s)
    ensures Going(g, root, target, t) && t.queue == []
    ensures forall q :: Enqueued(s, q) ==> q in t.done
    ensures target in s.visited ==> forall q :: q in t.done && Last(q) == target ==> Enqueued(s, q)
    decreases Remaining(g, s)
  {
    if s.queue == [] {
      t := s;
    } else {
      HeadIsOnGraph(g, root, target, s);
      var order := Enumerated(FreshNext(g, s));
      TakeTurn(g, root, target, s, order);
      t := SearchEnds(g, root, target, TurnOf(s, target, order));
      forall q
        ensures Enqueued(s, q) ==> Enqueued(TurnOf(s, target, order), q)
        ensures target in s.visited && Last(q) == target && Enqueued(TurnOf(s, target, order), q) ==> Enqueued(s, q)
      {
        TurnEnqueues(g, target, s, order, q);
      }
    }
  }

  lemma HeadIsOnGraph(g: Graph, root: Name, target: Name, s: Search)
    requires Going(g, root, target, s) && s.queue != []
    ensures Last(s.queue[0]) in g
  {
    ComesInv(g, root, target, s);
    HeadOnGraph(g, root, target, s);
  }

  lemma Begun(g: Graph, root: Name, target: Name)
    requires Closed(g) && root in g
    ensures Going(g, root, target, Start(root))
  {
  }

  lemma EndedReturns(g: Graph, root: Name, target: Name, t: Search)
    requires Going(g, root, target, t) && t.queue == []
    ensures Returns(g, root, target, t.found) && Result(g, root, target, t.found)
    ensures forall q :: q in t.found <==> q in t.done && Last(q) == target
  {
    ComesInv(g, root, target, t);
    FinishedFinds(g, root, target, t);
    EndingAtMember(t.done, target);
  }

  /** There is a result that the search may return. */
  lemma SomeResult(g: Graph, root: Name, target: Name) returns (found: seq<Path>)
    requires Closed(g) && root in g
    ensures Returns(g, root, target, found) && Result(g, root, target, found)
  {
    Begun(g, root, target);
    var t := SearchEnds(g, root, target, Start(root));
    EndedReturns(g, root, target, t);
    found := t.found;
  }

  // ---- which results there are ----

  /** `p` is in the queue behind shorter paths only, and nothing of its length has been dequeued. */
  ghost predicate Leads(s: Search, p: Path, k: nat) {
    && k < |s.queue| && s.queue[k] == p
    && (forall i :: 0 <= i < k ==> |s.queue[i]| < |p|)
    && (forall q :: q in s.done ==> |q| < |p|)
  }

  lemma LeadsOn(s: Search, target: Name, order: seq<Name>, p: Path, k: nat)
    requires Leads(s, p, k) && k > 0
    ensures Leads(TurnOf(s, target, order), p, k - 1)
  {
  }

  lemma CloserToHead(g: Graph, root: Name, target: Name, s: Search, p: Path, k: nat) returns (s': Search)
    requires Going(g, root, target, s) && Leads(s, p, k) && k > 0
    ensures Going(g, root, target, s') && Leads(s', p, k - 1)
  {
    HeadIsOnGraph(g, root, target, s);
    var order := Enumerated(FreshNext(g, s));
    s' := TurnOf(s, target, order);
    TakeTurn(g, root, target, s, order);
    LeadsOn(s, target, order, p, k);
  }

  /** A path that leads its length comes to the head of the queue. */
  lemma {:induction false} LeadsToHead(g: Graph, root: Name, target: Name, s: Search, p: Path, k: nat)
    returns (t: Search)
    requires Going(g, root, target, s) && Leads(s, p, k)
    ensures Going(g, root, target, t) && Leads(t, p, 0)
    decreases k
  {
    if k == 0 {
      t := s;
    } else {
      var s' := CloserToHead(g, root, target, s, p, k);
      t := LeadsToHead(g, root, target, s', p, k - 1);
    }
  }

  /** What is enqueued is a simple walk from the root; a visited node has been dequeued. */
  lemma EnqueuedJoins(g: Graph, root: Name, target: Name, s: Search, q: Path)
    requires Going(g, root, target, s) && Enqueued(s, q)
    ensures Joins(g, root, Last(q), q) && (|q| > 1 ==> Parent(q) in s.done)
  {
    ComesInv(g, root, target, s);
  }

  lemma VisitedEarlier(g: Graph, root: Name, target: Name, s: Search, n: Name) returns (r: Path)
    requires Going(g, root, target, s) && n in s.visited
    ensures r in s.done && Joins(g, root, n, r)
  {
    ComesInv(g, root, target, s);
    assert Witnessed(s.done, n);
    r :| r in s.done && Last(r) == n;
    EnqueuedJoins(g, root, target, s, r);
  }

  /** A walk to a node of a near-shortest path is no shorter than the path before that node. */
  lemma NoShortcut(g: Graph, root: Name, target: Name, p: Path, i: nat, r: Path)
    requires NearShortest(g, root, target, p) && i + 1 < |p| && Joins(g, root, p[i+1], r)
    ensures |r| >= i + 1
  {
    SubWalk(g, p, i + 1, |p| - 1);
    assert p[i+1..|p|-1+1] == p[i+1..];
    Splice(g, r, p[i+1..]);
  }

  /** When a prefix of a near-shortest path is the first of its length to be served, the next node is fresh. */
  lemma NextIsFresh(g: Graph, root: Name, target: Name, s: Search, p: Path, i: nat)
    requires Going(g, root, target, s) && NearShortest(g, root, target, p) && i + 1 < |p|
    requires Leads(s, p[..i+1], 0)
    ensures Last(s.queue[0]) == p[i] && p[i] in g && p[i+1] in FreshNext(g, s)
  {
    assert p[i+1] in g[p[i]] && p[i] != p[i+1];
    if p[i+1] in s.visited {
      var r := VisitedEarlier(g, root, target, s, p[i+1]);
      NoShortcut(g, root, target, p, i, r);
    }
  }

  /** The rest of the queue then is no longer than that prefix. */
  lemma RestIsLevel(g: Graph, root: Name, target: Name, s: Search, p: Path)
    requires Going(g, root, target, s) && Leads(s, p, 0)
    ensures forall q :: q in s.queue ==> |q| <= |p|
  {
    forall q | q in s.queue ensures |q| <= |p| {
      EnqueuedJoins(g, root, target, s, q);
      if |q| > 1 {
        assert |Parent(q)| == |q| - 1;
      }
    }
  }

  /** An order that meets `n` first. */
  lemma MeetsFirst(names: set<Name>, n: Name) returns (order: seq<Name>)
    requires n in names
    ensures Orders(order, names) && order != [] && order[0] == n
  {
    var rest := Enumerated(names - {n});
    assert Distinct([n]);
    DistinctConcat([n], rest);
    order := [n] + rest;
  }

  lemma {:induction false} FirstKid(p: Path, order: seq<Name>)
    requires order != []
    ensures Kids(p, order) != [] && Kids(p, order)[0] == p + [order[0]]
    decreases |order|
  {
    if |order| == 1 {
      assert order[..0] == [];
    } else {
      FirstKid(p, order[..|order|-1]);
    }
  }

  lemma KidLeads(g: Graph, root: Name, target: Name, s: Search, p: Path, order: seq<Name>)
    requires Going(g, root, target, s) && Leads(s, p, 0) && order != []
    ensures Leads(TurnOf(s, target, order), p + [order[0]], |s.queue| - 1)
  {
    RestIsLevel(g, root, target, s, p);
    FirstKid(p, order);
    var queue' := TurnOf(s, target, order).queue;
    forall i | 0 <= i < |s.queue| - 1 ensures |queue'[i]| < |p| + 1 {
      assert queue'[i] == s.queue[i+1] && s.queue[i+1] in s.queue;
    }
  }

  /** From one prefix of a near-shortest path to the next. */
  lemma PrefixGrows(g: Graph, root: Name, target: Name, s: Search, p: Path, i: nat, q: Path) returns (t: Search)
    requires Going(g, root, target, s) && NearShortest(g, root, target, p) && i + 1 < |p|
    requires Leads(s, p[..i+1], 0) && q == p[..i+1] + [p[i+1]]
    ensures Going(g, root, target, t) && Leads(t, q, 0)
  {
    NextIsFresh(g, root, target, s, p, i);
    var order := MeetsFirst(FreshNext(g, s), p[i+1]);
    TakeTurn(g, root, target, s, order);
    KidLeads(g, root, target, s, p[..i+1], order);
    t := LeadsToHead(g, root, target, TurnOf(s, target, order), q, |s.queue| - 1);
  }

  lemma FirstPrefix(g: Graph, root: Name, target: Name, p: Path)
    requires Closed(g) && root in g && NearShortest(g, root, target, p)
    ensures Going(g, root, target, Start(root)) && Leads(Start(root), p[..1], 0)
  {
    Begun(g, root, target);
    assert p[..1] == [root];
  }

  lemma PrefixSnoc(p: Path, i: nat)
    requires i < |p|
    ensures p[..i+1] == p[..i] + [p[i]]
  {
  }

  /** With each prefix leading its length and meeting its next node first, a near-shortest path gets through. */
  lemma {:induction false} PrefixGetsThrough(g: Graph, root: Name, target: Name, p: Path, i: nat) returns (t: Search)
    requires Closed(g) && root in g && NearShortest(g, root, target, p) && i < |p|
    ensures Going(g, root, target, t) && Leads(t, p[..i+1], 0)
    decreases i
  {
    if i == 0 {
      FirstPrefix(g, root, target, p);
      t := Start(root);
    } else {
      var s := PrefixGetsThrough(g, root, target, p, i - 1);
      PrefixSnoc(p, i);
      t := PrefixGrows(g, root, target, s, p, i - 1, p[..i+1]);
    }
  }

  /** The bound is exact: every simple path at most one hop from shortest is returned for some order of neighbours. */
  lemma NearShortestIsFound(g: Graph, root: Name, target: Name, p: Path) returns (found: seq<Path>)
    requires Closed(g) && root in g && NearShortest(g, root, target, p)
    ensures Returns(g, root, target, found) && Result(g, root, target, found) && p in found
  {
    var s := PrefixGetsThrough(g, root, target, p, |p| - 1);
    assert p[..|p|-1+1] == p;
    assert Enqueued(s, p);
    var t := SearchEnds(g, root, target, s);
    EndedReturns(g, root, target, t);
    found := t.found;
  }

  /** Once a shortest path has been the first of its length to be served, only shortest paths are queued. */
  lemma OnlyShortestQueued(g: Graph, root: Name, target: Name, s: Search, p: Path, order: seq<Name>, q: Path)
    requires Going(g, root, target, s) && Leads(s, p, 0) && Shortest(g, root, target, p)
    requires Last(p) in g && Orders(order, FreshNext(g, s))
    requires Enqueued(TurnOf(s, target, order), q) && Last(q) == target
    ensures Shortest(g, root, target, q)
  {
    TurnEnqueues(g, target, s, order, q);
    EnqueuedJoins(g, root, target, s, q);
    RestIsLevel(g, root, target, s, p);
  }

  /** For some order of neighbours nothing but the shortest paths is returned. */
  lemma OnlyShortestFound(g: Graph, root: Name, target: Name) returns (found: seq<Path>)
    requires Closed(g) && root in g
    ensures Returns(g, root, target, found) && Result(g, root, target, found)
    ensures forall q :: q in found <==> Shortest(g, root, target, q)
  {
    if p :| Shortest(g, root, target, p) {
      ShortestIsSimple(g, root, target, p);
      var s := PrefixGetsThrough(g, root, target, p, |p| - 1);
      assert p[..|p|-1+1] == p;
      var order := Enumerated(FreshNext(g, s));
      TakeTurn(g, root, target, s, order);
      var s' := TurnOf(s, target, order);
      var t := SearchEnds(g, root, target, s');
      EndedReturns(g, root, target, t);
      found := t.found;
      forall q | q in found ensures Shortest(g, root, target, q) {
        assert Enqueued(s', q);
        OnlyShortestQueued(g, root, target, s, p, order, q);
      }
    } else {
      found := SomeResult(g, root, target);
      forall q | q in found ensures false {
        assert Joins(g, root, target, q);
        ShortestExists(g, root, target, q);
      }
    }
  }

  /** Whether a near-shortest path that is not shortest is returned depends on the order of neighbours alone. */
  lemma DetourDependsOnOrder(g: Graph, root: Name, target: Name, p: Path)
    requires Closed(g) && root in g && NearShortest(g, root, target, p) && !Shortest(g, root, target, p)
    ensures exists found :: Returns(g, root, target, found) && p in found
    ensures exists found :: Returns(g, root, target, found) && found != [] && p !in found
  {
    var with := NearShortestIsFound(g, root, target, p);
    var without := OnlyShortestFound(g, root, target);
    assert Joins(g, root, target, p);
    ShortestExists(g, root, target, p);
    assert Returns(g, root, target, with) && p in with;
    assert Returns(g, root, target, without) && p !in without;
  }
}
