/** Shortest paths of a channel multigraph, defined by counting, independently of any search. */
module ShortestPaths {
  import opened Sums

  /** The adjacency list of autopilot.SimpleGraph: g[v] lists the peer of every channel of v, so
      that two parallel channels give two entries. */
  type Graph = seq<seq<int>>

  ghost predicate Closed(g: Graph) {
    forall v, j :: 0 <= v < |g| && 0 <= j < |g[v]| ==> 0 <= g[v][j] < |g|
  }

  function Adj(g: Graph, v: int): seq<int> {
    if 0 <= v < |g| then g[v] else []
  }

  /** A path is the list of channel positions taken from the start node on, so that paths over
      parallel channels are different paths. */
  ghost predicate IsPath(g: Graph, s: int, t: int, p: seq<int>)
    decreases p
  {
    if p == [] then s == t
    else 0 <= p[0] < |Adj(g, s)| && IsPath(g, Adj(g, s)[p[0]], t, p[1..])
  }

  /** The node reached after the first i hops of p. */
  ghost function NodeAt(g: Graph, s: int, p: seq<int>, i: nat): int
    decreases p
  {
    if i == 0 || p == [] || !(0 <= p[0] < |Adj(g, s)|) then s
    else NodeAt(g, Adj(g, s)[p[0]], p[1..], i - 1)
  }

  ghost predicate Visits(g: Graph, s: int, p: seq<int>, v: int) {
    exists i: nat :: i <= |p| && NodeAt(g, s, p, i) == v
  }

  ghost predicate IsPathSet(g: Graph, s: int, t: int, k: nat, r: set<seq<int>>) {
    forall p :: p in r <==> |p| == k && IsPath(g, s, t, p)
  }

  lemma {:induction false} PathSetExists(g: Graph, s: int, t: int, k: nat) returns (r: set<seq<int>>)
    ensures IsPathSet(g, s, t, k, r)
    decreases k
  {
    if k == 0 {
      r := if s == t then {[]} else {};
    } else {
      r := {};
      for i := 0 to |Adj(g, s)|
        invariant forall p :: p in r <==> |p| == k && IsPath(g, s, t, p) && p[0] < i
      {
        var rest := PathSetExists(g, Adj(g, s)[i], t, k - 1);
        var more := set p | p in rest :: [i] + p;
        forall p ensures p in more <==> |p| == k && IsPath(g, s, t, p) && p[0] == i {
          if |p| == k && p[0] == i { assert p == [i] + p[1..]; }
          if p in more { assert p[1..] in rest; }
        }
        r := r + more;
      }
    }
  }

  /** All paths of k hops from s to t. */
  ghost function Paths(g: Graph, s: int, t: int, k: nat): (r: set<seq<int>>)
    ensures IsPathSet(g, s, t, k, r)
  {
    assert exists r :: IsPathSet(g, s, t, k, r) by { var r := PathSetExists(g, s, t, k); }
    var r :| IsPathSet(g, s, t, k, r); r
  }

  ghost function NumPaths(g: Graph, s: int, t: int, k: nat): nat {
    |Paths(g, s, t, k)|
  }

  /** d is the hop distance from s to t, or -1 when t cannot be reached. */
  ghost predicate IsDist(g: Graph, s: int, t: int, d: int) {
    if d < 0 then d == -1 && forall k: nat :: NumPaths(g, s, t, k) == 0
    else NumPaths(g, s, t, d) > 0 && forall k: nat :: k < d ==> NumPaths(g, s, t, k) == 0
  }

  lemma DistExists(g: Graph, s: int, t: int)
    ensures exists d :: IsDist(g, s, t, d)
  {
    if k: nat :| NumPaths(g, s, t, k) > 0 {
      LeastExists(g, s, t, 0, k);
    } else {
      assert IsDist(g, s, t, -1);
    }
  }

  lemma {:induction false} LeastExists(g: Graph, s: int, t: int, from: nat, k: nat)
    requires from <= k && NumPaths(g, s, t, k) > 0
    requires forall j: nat :: j < from ==> NumPaths(g, s, t, j) == 0
    ensures exists d :: IsDist(g, s, t, d)
    decreases k - from
  {
    if NumPaths(g, s, t, from) > 0 {
      assert IsDist(g, s, t, from);
    } else {
      LeastExists(g, s, t, from + 1, k);
    }
  }

  ghost function Dist(g: Graph, s: int, t: int): (d: int)
    ensures IsDist(g, s, t, d)
  {
    DistExists(g, s, t);
    var d :| IsDist(g, s, t, d); d
  }

  lemma DistUnique(g: Graph, s: int, t: int, d: int)
    requires IsDist(g, s, t, d)
    ensures Dist(g, s, t) == d
  {
    var e := Dist(g, s, t);
    assert d >= 0 && e >= 0 ==> !(d < e) && !(e < d);
  }

  /** The number of shortest paths from s to t. */
  ghost function Sigma(g: Graph, s: int, t: int): nat {
    if Dist(g, s, t) < 0 then 0 else NumPaths(g, s, t, Dist(g, s, t))
  }

  /** The number of shortest paths from s to t that visit v. */
  ghost function SigmaThrough(g: Graph, s: int, t: int, v: int): nat {
    if Dist(g, s, t) < 0 then 0
    else |set p | p in Paths(g, s, t, Dist(g, s, t)) && Visits(g, s, p, v)|
  }

  /** The share of the shortest s-t paths that pass through v, for t != v. */
  ghost function PairDependency(g: Graph, s: int, v: int, t: int): real {
    if t == v || Sigma(g, s, t) == 0 then 0.0
    else SigmaThrough(g, s, t, v) as real / Sigma(g, s, t) as real
  }

  /** The pair dependencies of s on v, by target. */
  ghost function Pairs(g: Graph, s: int, v: int): int -> real {
    t => PairDependency(g, s, v, t)
  }

  /** The dependency of s on v: the pair dependencies of all targets together. */
  ghost function Dependency(g: Graph, s: int, v: int): real {
    Sum(|g|, Pairs(g, s, v))
  }

  // ----- splitting paths

  lemma {:induction false} SplitPath(g: Graph, s: int, t: int, p: seq<int>, q: seq<int>)
    ensures IsPath(g, s, t, p + q)
       <==> IsPath(g, s, NodeAt(g, s, p + q, |p|), p) && IsPath(g, NodeAt(g, s, p + q, |p|), t, q)
    decreases p
  {
    if p == [] {
      assert p + q == q;
    } else {
      assert (p + q)[1..] == p[1..] + q && (p + q)[0] == p[0];
      if 0 <= p[0] < |Adj(g, s)| {
        SplitPath(g, Adj(g, s)[p[0]], t, p[1..], q);
      }
    }
  }

  lemma {:induction false} JoinPath(g: Graph, s: int, v: int, t: int, p: seq<int>, q: seq<int>)
    requires IsPath(g, s, v, p) && IsPath(g, v, t, q)
    ensures IsPath(g, s, t, p + q) && NodeAt(g, s, p + q, |p|) == v
    decreases p
  {
    if p == [] {
      assert p + q == q;
    } else {
      assert (p + q)[1..] == p[1..] + q && (p + q)[0] == p[0];
      JoinPath(g, Adj(g, s)[p[0]], v, t, p[1..], q);
    }
  }

  lemma {:induction false} NodesInGraph(g: Graph, s: int, p: seq<int>, i: nat)
    requires Closed(g) && 0 <= s < |g|
    ensures 0 <= NodeAt(g, s, p, i) < |g|
    decreases p
  {
    if !(i == 0 || p == [] || !(0 <= p[0] < |Adj(g, s)|)) {
      NodesInGraph(g, Adj(g, s)[p[0]], p[1..], i - 1);
    }
  }

  /** Where a path is after a hops. */
  ghost function At(g: Graph, s: int, a: nat): seq<int> -> int {
    p => NodeAt(g, s, p, a)
  }

  /** The paths of a + b hops that are at v after a hops are exactly the joinings of an s-v path
      and a v-t path. */
  lemma PathsVia(g: Graph, s: int, v: int, t: int, a: nat, b: nat)
    ensures Class(Paths(g, s, t, a + b), At(g, s, a), v)
         == Joined(Paths(g, s, v, a), Paths(g, v, t, b))
  {
    var via := Class(Paths(g, s, t, a + b), At(g, s, a), v);
    var joined := Joined(Paths(g, s, v, a), Paths(g, v, t, b));
    forall r | r in via ensures r in joined {
      assert r == r[..a] + r[a..];
      SplitPath(g, s, t, r[..a], r[a..]);
      assert r[..a] in Paths(g, s, v, a) && r[a..] in Paths(g, v, t, b);
    }
    forall p, q | p in Paths(g, s, v, a) && q in Paths(g, v, t, b) ensures p + q in via {
      JoinPath(g, s, v, t, p, q);
    }
  }

  /** The number of paths of a + b hops from s to t that are at a given node after a hops. */
  ghost function Via(g: Graph, s: int, t: int, a: nat, b: nat): int -> real {
    v => Times(NumPaths(g, s, v, a), NumPaths(g, v, t, b) as real)
  }

  lemma ViaCount(g: Graph, s: int, v: int, t: int, a: nat, b: nat)
    ensures |Class(Paths(g, s, t, a + b), At(g, s, a), v)| as real == Via(g, s, t, a, b)(v)
  {
    PathsVia(g, s, v, t, a, b);
    JoinedCount(Paths(g, s, v, a), Paths(g, v, t, b), a);
  }

  /** Counting paths by the node they are at after a hops. */
  lemma PathsCompose(g: Graph, s: int, t: int, a: nat, b: nat)
    requires Closed(g) && 0 <= s < |g|
    ensures NumPaths(g, s, t, a + b) as real == Sum(|g|, Via(g, s, t, a, b))
  {
    var all := Paths(g, s, t, a + b);
    forall p | p in all ensures 0 <= At(g, s, a)(p) < |g| {
      NodesInGraph(g, s, p, a);
    }
    forall v | 0 <= v < |g| ensures Via(g, s, t, a, b)(v) == |Class(all, At(g, s, a), v)| as real {
      ViaCount(g, s, v, t, a, b);
    }
    ClassesCount(all, At(g, s, a), |g|, Via(g, s, t, a, b));
  }

  /** The number of channels from u to w. */
  ghost function Channels(g: Graph, u: int, w: int): nat {
    Occurrences(Adj(g, u), w)
  }

  lemma OneHopPaths(g: Graph, u: int, w: int)
    ensures NumPaths(g, u, w, 1) == Channels(g, u, w)
  {
    var slots := set j | 0 <= j < |Adj(g, u)| && Adj(g, u)[j] == w;
    SlotsCount(Adj(g, u), w);
    forall p ensures |p| == 1 && IsPath(g, u, w, p)
                <==> |p| == 1 && 0 <= p[0] < |Adj(g, u)| && Adj(g, u)[p[0]] == w {
      if |p| == 1 { assert p[1..] == []; }
    }
    SingletonsCount(slots, Paths(g, u, w, 1));
  }

  lemma {:induction false} SlotsCount(s: seq<int>, w: int)
    ensures |set j | 0 <= j < |s| && s[j] == w| == Occurrences(s, w)
  {
    if s != [] {
      var init := s[..|s| - 1];
      SlotsCount(init, w);
      OccurrencesOfLast(s, w);
      var slots := set j | 0 <= j < |s| && s[j] == w;
      var slots' := set j | 0 <= j < |init| && init[j] == w;
      assert slots == slots' + if s[|s| - 1] == w then {|s| - 1} else {};
    }
  }

  lemma {:induction false} SingletonsCount(js: set<int>, ps: set<seq<int>>)
    requires forall p :: p in ps <==> |p| == 1 && p[0] in js
    ensures |js| == |ps|
  {
    if ps == {} {
      assert forall j :: j in js ==> [j] in ps;
      assert js == {};
    } else {
      var q :| q in ps;
      var j := q[0];
      forall p ensures p in ps - {[j]} <==> |p| == 1 && p[0] in js - {j} {
        if |p| == 1 && p[0] == j { assert p == [j]; }
      }
      SingletonsCount(js - {j}, ps - {[j]});
      assert [j] in ps;
    }
  }

  // ----- distances

  lemma PathGivesDist(g: Graph, s: int, t: int, p: seq<int>)
    requires IsPath(g, s, t, p)
    ensures 0 <= Dist(g, s, t) <= |p|
  {
    assert p in Paths(g, s, t, |p|);
    assert NumPaths(g, s, t, |p|) > 0;
  }

  /** The triangle inequality, stated on path counts. */
  lemma PathBound(g: Graph, s: int, v: int, t: int, b: nat)
    requires Dist(g, s, v) >= 0 && NumPaths(g, v, t, b) > 0
    ensures 0 <= Dist(g, s, t) <= Dist(g, s, v) + b
  {
    var a := Dist(g, s, v);
    var p :| p in Paths(g, s, v, a);
    var q :| q in Paths(g, v, t, b);
    JoinPath(g, s, v, t, p, q);
    PathGivesDist(g, s, t, p + q);
  }

  lemma AdjacentBound(g: Graph, s: int, v: int, w: int)
    requires Dist(g, s, v) >= 0 && Channels(g, v, w) > 0
    ensures 0 <= Dist(g, s, w) <= Dist(g, s, v) + 1
  {
    OneHopPaths(g, v, w);
    PathBound(g, s, v, w, 1);
  }

  lemma SourceDist(g: Graph, s: int)
    ensures Dist(g, s, s) == 0 && Sigma(g, s, s) == 1
  {
    assert Paths(g, s, s, 0) == {[]};
    DistUnique(g, s, s, 0);
  }

  /** A shortest path can only meet v at v's own distance from s. */
  lemma VisitPosition(g: Graph, s: int, t: int, p: seq<int>, i: nat)
    requires Dist(g, s, t) >= 0 && p in Paths(g, s, t, Dist(g, s, t)) && i <= |p|
    ensures Dist(g, s, NodeAt(g, s, p, i)) == i
  {
    var v := NodeAt(g, s, p, i);
    assert p == p[..i] + p[i..];
    SplitPath(g, s, t, p[..i], p[i..]);
    PathGivesDist(g, s, v, p[..i]);
    assert p[i..] in Paths(g, v, t, |p| - i);
    PathBound(g, s, v, t, |p| - i);
  }

  /** Shortest paths through v: a shortest path to v continued by a path of the remaining length. */
  lemma ThroughCount(g: Graph, s: int, v: int, t: int)
    requires Dist(g, s, t) >= 0
    ensures SigmaThrough(g, s, t, v) as real
         == if 0 <= Dist(g, s, v) <= Dist(g, s, t)
            then Times(Sigma(g, s, v), NumPaths(g, v, t, Dist(g, s, t) - Dist(g, s, v)) as real)
            else 0.0
  {
    var d, a := Dist(g, s, t), Dist(g, s, v);
    var through := set p | p in Paths(g, s, t, d) && Visits(g, s, p, v);
    forall p | p in through ensures 0 <= a <= d && NodeAt(g, s, p, a) == v {
      var i: nat :| i <= |p| && NodeAt(g, s, p, i) == v;
      VisitPosition(g, s, t, p, i);
    }
    if 0 <= a <= d {
      ViaCount(g, s, v, t, a, d - a);
      assert through == Class(Paths(g, s, t, a + (d - a)), At(g, s, a), v);
    } else {
      assert through == {};
    }
  }
}
