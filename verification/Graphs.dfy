/** Directed graphs over named nodes, their walks, and distance counted in hops. */
module Graphs {

  /** The name of a cluster node; the empty one stands for no node. */
  datatype Name = Name(text: string)

  const NO_NAME := Name("")

  type Graph = map<Name, set<Name>>
  type Path = seq<Name>

  /** Every neighbour is itself a node. */
  ghost predicate Closed(g: Graph) {
    forall v :: v in g ==> g[v] <= g.Keys
  }

  ghost predicate Walk(g: Graph, p: Path) {
    && p != []
    && (forall i :: 0 <= i < |p| ==> p[i] in g)
    && (forall i :: 0 <= i < |p| - 1 ==> p[i+1] in g[p[i]])
  }

  /** The end of a path. */
  function Last(p: Path): Name {
    if p == [] then NO_NAME else p[|p|-1]
  }

  function Parent(p: Path): Path {
    if p == [] then [] else p[..|p|-1]
  }

  ghost predicate Distinct<T>(s: seq<T>) {
    forall i, j :: 0 <= i < j < |s| ==> s[i] != s[j]
  }

  lemma DistinctConcat<T>(a: seq<T>, b: seq<T>)
    requires Distinct(a) && Distinct(b) && forall x :: x in a ==> x !in b
    ensures Distinct(a + b)
  {
    var c := a + b;
    forall i, j | 0 <= i < j < |c| ensures c[i] != c[j] {
      if i < |a| <= j {
        assert a[i] in a && b[j-|a|] in b;
      }
    }
  }

  /** `p` is a walk from `s` to `t`. */
  ghost predicate Joins(g: Graph, s: Name, t: Name, p: Path) {
    Walk(g, p) && p[0] == s && Last(p) == t
  }

  ghost predicate Reachable(g: Graph, s: Name, t: Name) {
    exists p :: Joins(g, s, t, p)
  }

  ghost predicate Shortest(g: Graph, s: Name, t: Name, p: Path) {
    Joins(g, s, t, p) && forall q :: Joins(g, s, t, q) ==> |p| <= |q|
  }

  lemma {:induction false} ShortestExists(g: Graph, s: Name, t: Name, p: Path)
    requires Joins(g, s, t, p)
    ensures exists q :: Shortest(g, s, t, q) && |q| <= |p|
    decreases |p|
  {
    if q :| Joins(g, s, t, q) && |q| < |p| {
      ShortestExists(g, s, t, q);
    } else {
      assert Shortest(g, s, t, p);
    }
  }

  /** The number of hops on a shortest walk. */
  ghost function Dist(g: Graph, s: Name, t: Name): (d: nat)
    requires Reachable(g, s, t)
    ensures exists p :: Shortest(g, s, t, p) && |p| == d + 1
    ensures forall q :: Joins(g, s, t, q) ==> d + 1 <= |q|
  {
    var w :| Joins(g, s, t, w);
    ShortestExists(g, s, t, w);
    var p :| Shortest(g, s, t, p);
    |p| - 1
  }

  lemma SubWalk(g: Graph, p: Path, i: nat, j: nat)
    requires Walk(g, p) && i <= j < |p|
    ensures Joins(g, p[i], p[j], p[i..j+1])
  {
    var q := p[i..j+1];
    assert forall k :: 0 <= k < |q| ==> q[k] == p[i+k];
    forall k | 0 <= k < |q| - 1 ensures q[k+1] in g[q[k]] {
      assert p[(i+k)+1] in g[p[i+k]];
    }
  }

  /** Two walks that meet glue into one. */
  lemma Splice(g: Graph, p: Path, q: Path)
    requires Walk(g, p) && Walk(g, q) && Last(p) == q[0]
    ensures Joins(g, p[0], Last(q), p + q[1..]) && |p + q[1..]| == |p| + |q| - 1
  {
    var r := p + q[1..];
    forall k | 0 <= k < |r| - 1 ensures r[k+1] in g[r[k]] {
      if k < |p| - 1 {
        assert p[k+1] in g[p[k]];
      } else {
        var m := k - (|p| - 1);
        assert r[k] == q[m] && r[k+1] == q[m+1];
        assert q[m+1] in g[q[m]];
      }
    }
  }

  lemma Extend(g: Graph, p: Path, n: Name)
    requires Walk(g, p) && n in g && n in g[Last(p)]
    ensures Joins(g, p[0], n, p + [n])
  {
    var q := [Last(p), n];
    assert Walk(g, q);
    Splice(g, p, q);
    assert p + q[1..] == p + [n];
  }

  lemma LastHop(g: Graph, p: Path)
    requires Walk(g, p) && |p| > 1
    ensures Last(Parent(p)) in g && Last(p) in g[Last(Parent(p))] && p == Parent(p) + [Last(p)]
  {
    assert p[(|p|-2)+1] in g[p[|p|-2]];
  }

  lemma Triangle(g: Graph, a: Name, b: Name, c: Name)
    requires Reachable(g, a, b) && Reachable(g, b, c)
    ensures Reachable(g, a, c) && Dist(g, a, c) <= Dist(g, a, b) + Dist(g, b, c)
  {
    var d, e := Dist(g, a, b), Dist(g, b, c);
    var p :| Shortest(g, a, b, p) && |p| == d + 1;
    var q :| Shortest(g, b, c, q) && |q| == e + 1;
    Splice(g, p, q);
  }

  /** Every prefix of a shortest walk is a shortest walk. */
  lemma ShortestPrefix(g: Graph, s: Name, t: Name, p: Path, i: nat)
    requires Shortest(g, s, t, p) && i < |p|
    ensures Shortest(g, s, p[i], p[..i+1])
  {
    SubWalk(g, p, 0, i);
    SubWalk(g, p, i, |p| - 1);
    assert p[0..i+1] == p[..i+1] && p[i..|p|-1+1] == p[i..];
    forall q | Joins(g, s, p[i], q) ensures i + 1 <= |q| {
      Splice(g, q, p[i..]);
    }
  }

  /** A shortest walk repeats no node: cutting a loop out would make it shorter. */
  lemma ShortestIsSimple(g: Graph, s: Name, t: Name, p: Path)
    requires Shortest(g, s, t, p)
    ensures Distinct(p)
  {
    forall i, j | 0 <= i < j < |p| ensures p[i] != p[j] {
      if p[i] == p[j] {
        SubWalk(g, p, 0, i);
        SubWalk(g, p, j, |p| - 1);
        Splice(g, p[0..i+1], p[j..|p|-1+1]);
      }
    }
  }

  /** A repetition-free sequence over a finite set is no longer than the set. */
  lemma {:induction false} DistinctFits(p: seq<Name>, keys: set<Name>)
    requires Distinct(p) && forall i :: 0 <= i < |p| ==> p[i] in keys
    ensures |p| <= |keys|
    decreases |p|
  {
    if p == [] {
    } else {
      DistinctFits(p[1..], keys - {p[0]});
    }
  }

  /** All sequences over `keys` of length at most `n`: a finite set that holds every simple path. */
  ghost function Universe(keys: set<Name>, n: nat): set<Path> {
    if n == 0 then {[]}
    else Universe(keys, n - 1) + set p, x | p in Universe(keys, n - 1) && x in keys :: p + [x]
  }

  lemma {:induction false} InUniverse(p: Path, keys: set<Name>, n: nat)
    requires |p| <= n && forall i :: 0 <= i < |p| ==> p[i] in keys
    ensures p in Universe(keys, n)
    decreases n
  {
    if n == 0 {
    } else {
      if |p| < n {
        InUniverse(p, keys, n - 1);
      } else {
        InUniverse(p[..n-1], keys, n - 1);
        assert p == p[..n-1] + [p[n-1]];
      }
    }
  }
}
