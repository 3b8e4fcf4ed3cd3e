/** Halving: on a graph whose channels are listed at both ends, the score of a node is twice the sum
    over the unordered pairs of other nodes. */
module Undirected {
  import opened Bytes
  import opened Sums
  import opened ShortestPaths
  import opened Dependencies
  import opened Search
  import opened SimpleGraphs
  import opened Metric

  ghost predicate Symmetric(g: Graph) {
    forall u, v :: Channels(g, u, v) == Channels(g, v, u)
  }

  /** Paths can be walked backwards. */
  lemma {:induction false} PathsReverse(g: Graph, s: int, t: int, k: nat)
    requires Closed(g) && Symmetric(g) && 0 <= s < |g| && 0 <= t < |g|
    ensures NumPaths(g, s, t, k) == NumPaths(g, t, s, k)
    decreases k
  {
    if k == 0 {
      ZeroHops(g, s, t);
      ZeroHops(g, t, s);
    } else {
      var j: nat := k - 1;
      forall v | 0 <= v < |g| ensures NumPaths(g, v, t, j) == NumPaths(g, t, v, j) {
        PathsReverse(g, v, t, j);
      }
      ReverseStep(g, s, t, j, Via(g, s, t, 1, j), Via(g, t, s, j, 1));
    }
  }

  lemma ReverseStep(g: Graph, s: int, t: int, j: nat, there: int -> real, back: int -> real)
    requires Closed(g) && Symmetric(g) && 0 <= s < |g| && 0 <= t < |g|
    requires there == Via(g, s, t, 1, j) && back == Via(g, t, s, j, 1)
    requires forall v :: 0 <= v < |g| ==> NumPaths(g, v, t, j) == NumPaths(g, t, v, j)
    ensures NumPaths(g, s, t, 1 + j) == NumPaths(g, t, s, j + 1)
  {
    PathsCompose(g, s, t, 1, j);
    PathsCompose(g, t, s, j, 1);
    forall v | 0 <= v < |g| ensures there(v) == back(v) {
      OneHopPaths(g, s, v);
      OneHopPaths(g, v, s);
      TimesCommutes(NumPaths(g, s, v, 1), NumPaths(g, v, t, j));
    }
    SumEqual(|g|, there, back);
  }

  lemma DistReverse(g: Graph, s: int, t: int)
    requires Closed(g) && Symmetric(g) && 0 <= s < |g| && 0 <= t < |g|
    ensures Dist(g, s, t) == Dist(g, t, s) && Sigma(g, s, t) == Sigma(g, t, s)
  {
    forall k: nat ensures NumPaths(g, s, t, k) == NumPaths(g, t, s, k) {
      PathsReverse(g, s, t, k);
    }
    DistUnique(g, t, s, Dist(g, s, t));
  }

  /** v lies on a shortest path from s to t. */
  ghost predicate Between(g: Graph, s: int, v: int, t: int) {
    Dist(g, s, v) >= 0 && Dist(g, v, t) >= 0 && Dist(g, s, v) + Dist(g, v, t) == Dist(g, s, t)
  }

  /** The pair dependency by the numbers of shortest paths on either side of v. */
  lemma PairSides(g: Graph, s: int, v: int, t: int)
    requires Dist(g, s, t) >= 0 && t != v
    ensures PairDependency(g, s, v, t)
         == if Between(g, s, v, t) then Times(Sigma(g, s, v), Sigma(g, v, t) as real) / Sigma(g, s, t) as real
            else 0.0
  {
    PairFormula(g, s, v, t);
    if 0 <= Dist(g, s, v) <= Dist(g, s, t) {
      SecondHalf(g, s, v, t, Dist(g, s, t) - Dist(g, s, v));
      TimesZero(Sigma(g, s, v));
    }
  }

  lemma SecondHalf(g: Graph, s: int, v: int, t: int, b: nat)
    requires 0 <= Dist(g, s, v) && Dist(g, s, v) + b == Dist(g, s, t)
    ensures NumPaths(g, v, t, b) == if Dist(g, v, t) == b then Sigma(g, v, t) else 0
  {
    if NumPaths(g, v, t, b) > 0 && Dist(g, v, t) >= 0 {
      PathBound(g, s, v, t, Dist(g, v, t));
    }
  }

  lemma PairReverse(g: Graph, s: int, v: int, t: int)
    requires Closed(g) && Symmetric(g) && 0 <= s < |g| && 0 <= t < |g| && 0 <= v < |g| && s != v && t != v
    ensures PairDependency(g, s, v, t) == PairDependency(g, t, v, s)
  {
    DistReverse(g, s, t);
    if Dist(g, s, t) >= 0 {
      DistReverse(g, s, v);
      DistReverse(g, v, t);
      PairSides(g, s, v, t);
      PairSides(g, t, v, s);
      TimesCommutes(Sigma(g, s, v), Sigma(g, v, t));
    }
  }

  /** The share of the shortest paths between s and t that pass through v, neither end being v. */
  ghost function PairAt(g: Graph, v: int, s: int): int -> real {
    t => if s == v || t == v then 0.0 else PairDependency(g, s, v, t)
  }

  /** Table of all pairs. */
  ghost function PairTable(g: Graph, v: int): int -> int -> real {
    s => PairAt(g, v, s)
  }

  /** For each t, the sum over all s before t: every unordered pair is counted once. */
  ghost function UpperColumns(p: int -> int -> real): int -> real {
    t => if t < 0 then 0.0 else Sum(t, Column(p, t))
  }

  /** Betweenness centrality: the sum over all unordered pairs of other nodes. */
  ghost function Betweenness(g: Graph, v: int): real {
    Sum(|g|, UpperColumns(PairTable(g, v)))
  }

  ghost function RowSums(p: int -> int -> real, n: nat): int -> real {
    s => Sum(n, p(s))
  }

  lemma {:induction false} SymmetricTable(p: int -> int -> real, n: nat)
    requires forall s, t :: 0 <= s < n && 0 <= t < n ==> p(s)(t) == p(t)(s)
    requires forall s :: 0 <= s < n ==> p(s)(s) == 0.0
    ensures Sum(n, RowSums(p, n)) == 2.0 * Sum(n, UpperColumns(p))
  {
    if n > 0 {
      SymmetricTable(p, n - 1);
      var last := Column(p, n - 1);
      LastRow(p, n - 1, last);
    }
  }

  /** The last row and the last column of a symmetric table add the same to its sum. */
  lemma LastRow(p: int -> int -> real, n: nat, last: int -> real)
    requires forall s :: 0 <= s < n ==> last(s) == p(s)(n) == p(n)(s)
    requires p(n)(n) == 0.0
    ensures Sum(n + 1, RowSums(p, n + 1)) == Sum(n, RowSums(p, n)) + 2.0 * Sum(n, last)
  {
    SumAdds(n, RowSums(p, n), last, RowSums(p, n + 1));
    SumEqual(n, p(n), last);
  }

  lemma PairTableSymmetric(g: Graph, v: int)
    requires Closed(g) && Symmetric(g) && 0 <= v < |g|
    ensures forall s, t :: 0 <= s < |g| && 0 <= t < |g| ==> PairTable(g, v)(s)(t) == PairTable(g, v)(t)(s)
    ensures forall s :: 0 <= s < |g| ==> PairTable(g, v)(s)(s) == 0.0
  {
    forall s, t | 0 <= s < |g| && 0 <= t < |g| ensures PairTable(g, v)(s)(t) == PairTable(g, v)(t)(s) {
      if s != v && t != v { PairReverse(g, s, v, t); }
    }
    forall s | 0 <= s < |g| ensures PairTable(g, v)(s)(s) == 0.0 {
      if s != v { Apart(g, s, v); }
    }
  }

  lemma Apart(g: Graph, s: int, v: int)
    requires s != v
    ensures PairDependency(g, s, v, s) == 0.0
  {
    SourceDist(g, s);
    if Dist(g, s, v) >= 0 { PairVanishes(g, s, v, s); } else { PairFormula(g, s, v, s); }
  }

  /** What Refresh stores is the betweenness centrality of the undirected graph. */
  lemma HalvedScore(g: Graph, v: int)
    requires Closed(g) && Symmetric(g) && 0 <= v < |g|
    ensures Score(g, v) / 2.0 == Betweenness(g, v)
  {
    var p := PairTable(g, v);
    PairTableSymmetric(g, v);
    SymmetricTable(p, |g|);
    forall s | 0 <= s < |g| ensures Sources(g, v)(s) == RowSums(p, |g|)(s) {
      SourceRow(g, v, s);
    }
    SumEqual(|g|, Sources(g, v), RowSums(p, |g|));
  }

  lemma SourceRow(g: Graph, v: int, s: int)
    ensures Sources(g, v)(s) == Sum(|g|, PairAt(g, v, s))
  {
    if s == v {
      SumSingle(|g|, |g|, PairAt(g, v, s));
    } else {
      SumEqual(|g|, Pairs(g, s, v), PairAt(g, v, s));
    }
  }

  // ----- graphs that the iteration of a channel graph gives

  /** The iteration lists every channel at both of its ends. */
  ghost predicate BothEnds(visits: seq<Visit>) {
    forall a, b :: multiset(PeersOf(visits, a))[b] == multiset(PeersOf(visits, b))[a]
  }

  /** Re-indexing keeps the number of channels between two nodes. */
  lemma {:induction false} RowCount(nodes: seq<NodeID>, indices: seq<int>, keys: seq<NodeID>, w: int)
    requires NoRepeats(nodes) && Row(nodes, indices, keys) && 0 <= w < |nodes|
    ensures Occurrences(indices, w) == multiset(keys)[nodes[w]]
    decreases |keys|
  {
    if keys != [] {
      var n := |keys| - 1;
      assert Row(nodes, indices[..n], keys[..n]);
      RowCount(nodes, indices[..n], keys[..n], w);
      OccurrencesOfLast(indices, w);
      SameNode(nodes, indices[n], w);
      KeysLast(keys, nodes[w]);
    }
  }

  lemma SameNode(nodes: seq<NodeID>, u: int, w: int)
    requires NoRepeats(nodes) && 0 <= u < |nodes| && 0 <= w < |nodes|
    ensures nodes[u] == nodes[w] <==> u == w
  {
  }

  lemma KeysLast(keys: seq<NodeID>, k: NodeID)
    requires keys != []
    ensures multiset(keys)[k] == multiset(keys[..|keys| - 1])[k] + if k == keys[|keys| - 1] then 1 else 0
  {
    assert keys == keys[..|keys| - 1] + [keys[|keys| - 1]];
  }

  lemma NoSuchNode(g: Graph, u: int, v: int)
    requires Closed(g) && !(0 <= v < |g|)
    ensures Channels(g, u, v) == 0
  {
    assert forall i :: 0 <= i < |Adj(g, u)| ==> Adj(g, u)[i] != v;
  }

  lemma FaithfulChannels(visits: seq<Visit>, g: SimpleGraph, u: int, v: int)
    requires Faithful(visits, g) && 0 <= u < |g.nodes| && 0 <= v < |g.nodes|
    ensures Channels(g.adj, u, v) == multiset(PeersOf(visits, g.nodes[u]))[g.nodes[v]]
  {
    FirstsOnce(Met(visits));
    RowCount(g.nodes, g.adj[u], PeersOf(visits, g.nodes[u]), v);
  }

  /** The graph that NewSimpleGraph builds from such an iteration is symmetric. */
  lemma FaithfulSymmetric(visits: seq<Visit>, g: SimpleGraph)
    requires Faithful(visits, g) && BothEnds(visits)
    ensures Symmetric(g.adj)
  {
    forall u, v ensures Channels(g.adj, u, v) == Channels(g.adj, v, u) {
      if 0 <= u < |g.nodes| && 0 <= v < |g.nodes| {
        FaithfulChannels(visits, g, u, v);
        FaithfulChannels(visits, g, v, u);
      } else {
        OutsideChannels(g.adj, u, v);
      }
    }
  }

  lemma OutsideChannels(g: Graph, u: int, v: int)
    requires Closed(g) && !(0 <= u < |g| && 0 <= v < |g|)
    ensures Channels(g, u, v) == Channels(g, v, u) == 0
  {
    if !(0 <= v < |g|) { NoSuchNode(g, u, v); }
    if !(0 <= u < |g|) { NoSuchNode(g, v, u); }
  }

  /** So the values of Refresh are the betweenness centralities of the channel graph. */
  lemma RefreshedBetweenness(visits: seq<Visit>, g: SimpleGraph, v: int)
    requires Faithful(visits, g) && BothEnds(visits) && 0 <= v < |g.nodes|
    ensures Score(g.adj, v) / 2.0 == Betweenness(g.adj, v)
  {
    FaithfulSymmetric(visits, g);
    HalvedScore(g.adj, v);
  }
}
