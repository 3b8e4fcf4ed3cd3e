/** BetweennessCentrality.Refresh and GetMetric: summing the work of any number of workers, and
    normalising the result. */
module Metric {
  import opened Options
  import opened Bytes
  import opened Sums
  import opened ShortestPaths
  import opened Search
  import opened Centrality
  import opened SimpleGraphs

  /** What each source contributes to the centrality of v. */
  ghost function Sources(g: Graph, v: int): int -> real {
    s => if s == v then 0.0 else Dependency(g, s, v)
  }

  /** The sum of the dependencies of all other nodes on v. */
  ghost function Score(g: Graph, v: int): real {
    Sum(|g|, Sources(g, v))
  }

  /** The part of the sources that worker k receives. */
  ghost function Dealt(g: Graph, schedule: int -> int, k: int, v: int): int -> real {
    s => if schedule(s) == k then Sources(g, v)(s) else 0.0
  }

  lemma DependencyNonNegative(g: Graph, s: int, v: int)
    ensures Dependency(g, s, v) >= 0.0
  {
    SumNonNegative(|g|, Pairs(g, s, v));
  }

  lemma ScoreNonNegative(g: Graph, v: int)
    ensures Score(g, v) >= 0.0
  {
    forall s | 0 <= s < |g| ensures Sources(g, v)(s) >= 0.0 {
      DependencyNonNegative(g, s, v);
    }
    SumNonNegative(|g|, Sources(g, v));
  }

  /** The shares of all workers for one source. */
  ghost function PerWorker(g: Graph, schedule: int -> int, v: int): int -> real {
    k => Sum(|g|, Dealt(g, schedule, k, v))
  }

  /** However the sources are dealt out, the workers together have summed all of them. */
  lemma AnySchedule(g: Graph, schedule: int -> int, workers: nat, v: int)
    requires forall s :: 0 <= s < |g| ==> 0 <= schedule(s) < workers
    ensures Sum(workers, PerWorker(g, schedule, v)) == Score(g, v)
  {
    var table := k => Dealt(g, schedule, k, v);
    forall s | 0 <= s < |g| ensures Sources(g, v)(s) == Sum(workers, Column(table, s)) {
      SumSingle(workers, schedule(s), Column(table, s));
    }
    SumSwap(workers, |g|, table, PerWorker(g, schedule, v), Sources(g, v));
  }

  /** Every worker is heard exactly once. */
  ghost predicate Permutation(arrival: seq<int>, n: nat) {
    |arrival| == n && Distinct(arrival) && forall i :: 0 <= i < n ==> 0 <= arrival[i] < n
  }

  lemma {:induction false} OccursOnce(s: seq<int>, x: int)
    requires Distinct(s)
    ensures Occurrences(s, x) == if x in s then 1 else 0
  {
    if s != [] {
      OccurrencesOfLast(s, x);
      OccursOnce(s[..|s| - 1], x);
      assert s == s[..|s| - 1] + [s[|s| - 1]];
    }
  }

  lemma PermutationCovers(arrival: seq<int>, n: nat, x: int)
    requires Permutation(arrival, n) && 0 <= x < n
    ensures x in arrival
  {
    if x !in arrival {
      DistinctBoundedBut(arrival, n, x);
    }
  }

  lemma DistinctBoundedBut(o: seq<int>, n: nat, x: int)
    requires Distinct(o) && 0 <= x < n && x !in o && forall i :: 0 <= i < |o| ==> 0 <= o[i] < n
    ensures |o| < n
  {
    DistinctBounded(o + [x], n);
  }

  /** Summing the partial results in their order of arrival. */
  lemma AnyArrival(arrival: seq<int>, n: nat, f: int -> real)
    requires Permutation(arrival, n)
    ensures SumOver(arrival, f) == Sum(n, f)
  {
    forall x | 0 <= x < n ensures f(x) == Times(Occurrences(arrival, x), f(x)) {
      PermutationCovers(arrival, n, x);
      OccursOnce(arrival, x);
    }
    SumOverCounts(arrival, n, f, f);
  }

  // ----- the workers

  /** The partial results of all workers after the first m nodes have been handed out. */
  ghost predicate PartialSums(g: Graph, schedule: int -> int, partials: seq<array<real>>, m: nat)
    reads partials
  {
    && (forall k :: 0 <= k < |partials| ==> partials[k].Length == |g|)
    && (forall k, v :: 0 <= k < |partials| && 0 <= v < |g| ==>
          partials[k][v] == Sum(m, Dealt(g, schedule, k, v)))
  }

  ghost predicate Separate(partials: seq<array<real>>) {
    forall k, l :: 0 <= k < l < |partials| ==> partials[k] != partials[l]
  }

  /** The workers: node i is consumed by worker schedule(i), which adds to its own partial result
      only, so that the interleaving of different workers does not matter. */
  method Work(g: Graph, workers: nat, schedule: int -> int) returns (partials: seq<array<real>>)
    requires Closed(g)
    requires forall s :: 0 <= s < |g| ==> 0 <= schedule(s) < workers
    ensures |partials| == workers && fresh(partials) && PartialSums(g, schedule, partials, |g|)
  {
    partials := Blank(g, workers, schedule);
    ConsumeAll(g, schedule, partials);
  }

  method ConsumeAll(g: Graph, schedule: int -> int, partials: seq<array<real>>)
    requires Closed(g) && Separate(partials) && PartialSums(g, schedule, partials, 0)
    requires forall s :: 0 <= s < |g| ==> 0 <= schedule(s) < |partials|
    modifies partials
    ensures PartialSums(g, schedule, partials, |g|)
  {
    for node := 0 to |g|
      invariant PartialSums(g, schedule, partials, node)
    {
      Consume(g, schedule, partials, node);
    }
  }

  /** The worker that receives a node adds its dependencies to its partial result. */
  method Consume(g: Graph, schedule: int -> int, partials: seq<array<real>>, node: nat)
    requires Closed(g) && node < |g| && 0 <= schedule(node) < |partials|
    requires Separate(partials) && PartialSums(g, schedule, partials, node)
    modifies partials
    ensures PartialSums(g, schedule, partials, node + 1)
  {
    var w := schedule(node);
    AddDependencies(g, node, partials[w]);
    forall k, v | 0 <= k < |partials| && 0 <= v < |g|
      ensures partials[k][v] == Sum(node + 1, Dealt(g, schedule, k, v))
    {
      DealtNext(g, schedule, k, v, node);
      assert k != w ==> partials[k] != partials[w];
    }
  }

  lemma DealtNext(g: Graph, schedule: int -> int, k: int, v: int, m: nat)
    ensures Sum(m + 1, Dealt(g, schedule, k, v)) == Sum(m, Dealt(g, schedule, k, v))
      + if schedule(m) == k && m != v then Dependency(g, m, v) else 0.0
  {}

  method Blank(g: Graph, workers: nat, ghost schedule: int -> int) returns (partials: seq<array<real>>)
    ensures |partials| == workers && fresh(partials) && Separate(partials)
    ensures PartialSums(g, schedule, partials, 0)
  {
    partials := [];
    for k := 0 to workers
      invariant |partials| == k && fresh(partials) && Separate(partials)
      invariant PartialSums(g, schedule, partials, 0)
    {
      var partial := new real[|g|](_ => 0.0);
      partials := partials + [partial];
    }
  }

  /** Collecting the partial results. */
  method Collect(g: Graph, ghost schedule: int -> int, partials: seq<array<real>>, arrival: seq<int>)
    returns (centrality: array<real>)
    requires PartialSums(g, schedule, partials, |g|) && Permutation(arrival, |partials|)
    requires forall s :: 0 <= s < |g| ==> 0 <= schedule(s) < |partials|
    ensures fresh(centrality) && centrality.Length == |g|
    ensures forall v :: 0 <= v < |g| ==> centrality[v] == Score(g, v)
  {
    centrality := new real[|g|](_ => 0.0);
    for j := 0 to |arrival|
      invariant forall v :: 0 <= v < |g| ==>
        centrality[v] == SumOver(arrival[..j], PerWorker(g, schedule, v))
    {
      AddPartial(centrality, partials[arrival[j]]);
      forall v ensures SumOver(arrival[..j + 1], PerWorker(g, schedule, v))
                    == SumOver(arrival[..j], PerWorker(g, schedule, v)) + PerWorker(g, schedule, v)(arrival[j]) {
        OneMoreHeard(arrival, j, PerWorker(g, schedule, v));
      }
    }
    assert arrival[..|arrival|] == arrival;
    forall v | 0 <= v < |g| ensures centrality[v] == Score(g, v) {
      AllHeard(g, schedule, |partials|, arrival, v);
    }
  }

  method AddPartial(centrality: array<real>, partial: array<real>)
    requires centrality != partial && centrality.Length == partial.Length
    modifies centrality
    ensures forall v :: 0 <= v < centrality.Length ==> centrality[v] == old(centrality[v]) + partial[v]
  {
    for i := 0 to centrality.Length
      invariant forall v :: 0 <= v < i ==> centrality[v] == old(centrality[v]) + partial[v]
      invariant forall v :: i <= v < centrality.Length ==> centrality[v] == old(centrality[v])
    {
      centrality[i] := centrality[i] + partial[i];
    }
  }

  lemma OneMoreHeard(arrival: seq<int>, j: nat, f: int -> real)
    requires j < |arrival|
    ensures SumOver(arrival[..j + 1], f) == SumOver(arrival[..j], f) + f(arrival[j])
  {
    assert arrival[..j + 1][..j] == arrival[..j];
  }

  lemma AllHeard(g: Graph, schedule: int -> int, workers: nat, arrival: seq<int>, v: int)
    requires Permutation(arrival, workers) && forall s :: 0 <= s < |g| ==> 0 <= schedule(s) < workers
    ensures SumOver(arrival, PerWorker(g, schedule, v)) == Score(g, v)
  {
    AnyArrival(arrival, workers, PerWorker(g, schedule, v));
    AnySchedule(g, schedule, workers, v);
  }

  /** The extremes of the collected values, both starting at 0. */
  method MinMax(centrality: array<real>) returns (min: real, max: real)
    requires forall i :: 0 <= i < centrality.Length ==> centrality[i] >= 0.0
    ensures min == 0.0 && max >= 0.0
    ensures forall i :: 0 <= i < centrality.Length ==> centrality[i] <= max
    ensures max > 0.0 ==> exists i :: 0 <= i < centrality.Length && centrality[i] == max
  {
    min, max := 0.0, 0.0;
    for i := 0 to centrality.Length
      invariant min == 0.0 && max >= 0.0
      invariant forall j :: 0 <= j < i ==> centrality[j] <= max
      invariant max > 0.0 ==> exists j :: 0 <= j < i && centrality[j] == max
    {
      var v := centrality[i];
      if v < min {
        min := v;
      } else if v > max {
        max := v;
      }
    }
  }

  /** The map stored by Refresh. */
  method Store(nodes: seq<NodeID>, centrality: array<real>) returns (m: map<NodeID, real>)
    requires |nodes| == centrality.Length && NoRepeats(nodes)
    ensures forall k :: k in m <==> k in nodes
    ensures forall u :: 0 <= u < |nodes| ==> m[nodes[u]] == centrality[u] / 2.0
  {
    m := map[];
    for u := 0 to |nodes|
      invariant forall k :: k in m <==> k in nodes[..u]
      invariant forall i :: 0 <= i < u ==> nodes[i] in m && m[nodes[i]] == centrality[i] / 2.0
    {
      m := m[nodes[u] := centrality[u] / 2.0];
    }
  }

  class BetweennessCentrality {
    const workers: nat
    var centrality: map<NodeID, real>
    var min: real
    var max: real

    /** The values lie between min = 0 and max, and max is attained. */
    ghost predicate Valid()
      reads this
    {
      && workers >= 1 && min == 0.0 && max >= 0.0
      && (forall k :: k in centrality ==> 0.0 <= centrality[k] <= max)
      && (max > 0.0 ==> exists k :: k in centrality && centrality[k] == max)
    }

    constructor (workers: nat)
      requires workers >= 1
      ensures Valid() && this.workers == workers && centrality == map[]
    {
      this.workers := workers;
      centrality, min, max := map[], 0.0, 0.0;
    }

    /** Refresh, for every schedule of the nodes and every order of arrival of the partial results. */
    method Refresh(visits: seq<Visit>, failed: bool, schedule: int -> int, arrival: seq<int>)
      returns (ok: bool, ghost g: SimpleGraph)
      requires Valid() && Permutation(arrival, workers)
      requires forall s :: 0 <= schedule(s) < workers
      modifies this
      ensures ok == !failed && Valid()
      ensures failed ==> unchanged(this)
      ensures ok ==> Faithful(visits, g)
      ensures ok ==> (forall k :: k in centrality <==> k in g.nodes)
      ensures ok ==> forall u :: 0 <= u < |g.nodes| ==> centrality[g.nodes[u]] == Score(g.adj, u) / 2.0
    {
      var cache := NewSimpleGraph(visits, failed);
      if cache.None? {
        return false, SimpleGraph([], []);
      }
      g := cache.value;
      var graph := cache.value;
      FirstsOnce(Met(visits));
      var partials := Work(graph.adj, workers, schedule);
      var total := Collect(graph.adj, schedule, partials, arrival);
      forall v | 0 <= v < |graph.adj| ensures total[v] >= 0.0 {
        ScoreNonNegative(graph.adj, v);
      }
      Publish(graph.nodes, total);
      ok := true;
    }

    /** The last part of Refresh: the extremes and the map, all halved. */
    method Publish(nodes: seq<NodeID>, total: array<real>)
      requires Valid() && |nodes| == total.Length && NoRepeats(nodes)
      requires forall i :: 0 <= i < total.Length ==> total[i] >= 0.0
      modifies this
      ensures Valid()
      ensures forall k :: k in centrality <==> k in nodes
      ensures forall u :: 0 <= u < |nodes| ==> centrality[nodes[u]] == total[u] / 2.0
    {
      var lo, hi := MinMax(total);
      min, max := lo / 2.0, hi / 2.0;
      centrality := Store(nodes, total);
      assert forall k :: k in centrality ==> exists u :: 0 <= u < |nodes| && nodes[u] == k;
      if max > 0.0 {
        var i :| 0 <= i < total.Length && total[i] == hi;
        assert nodes[i] in centrality && centrality[nodes[i]] == max;
      }
    }

    /** GetMetric: the stored values, or their images in the unit interval with the maximum at 1. */
    method GetMetric(normalize: bool) returns (m: map<NodeID, real>)
      requires Valid()
      ensures m.Keys == centrality.Keys
      ensures !normalize ==> m == centrality
      ensures normalize ==> forall k :: k in m ==> 0.0 <= m[k] <= 1.0 && m[k] * max == centrality[k]
      ensures normalize && max > 0.0 ==> exists k :: k in m && m[k] == 1.0
      ensures normalize && max == 0.0 ==> forall k :: k in m ==> m[k] == 0.0
    {
      var z := 0.0;
      if max - min > 0.0 {
        z := 1.0 / (max - min);
      }
      m := Report(centrality, normalize, min, z);
      if normalize {
        UnitReport(centrality, m, max, z);
      }
    }
  }

  /** NewBetweennessCentralityMetric: an error unless there is at least one worker. */
  method NewBetweennessCentralityMetric(workers: int) returns (r: Option<BetweennessCentrality>)
    ensures r.Some? <==> workers >= 1
    ensures r.Some? ==> fresh(r.value) && r.value.Valid() && r.value.workers == workers
  {
    if workers < 1 {
      return None;
    }
    var bc := new BetweennessCentrality(workers);
    r := Some(bc);
  }

  method Report(c: map<NodeID, real>, normalize: bool, min: real, z: real) returns (m: map<NodeID, real>)
    ensures m.Keys == c.Keys && forall k :: k in m ==> m[k] == Normalized(normalize, c[k], min, z)
  {
    m := map[];
    var todo := c.Keys;
    while todo != {}
      invariant todo <= c.Keys && m.Keys == c.Keys - todo
      invariant forall k :: k in m ==> m[k] == Normalized(normalize, c[k], min, z)
    {
      var k :| k in todo;
      m := m[k := Normalized(normalize, c[k], min, z)];
      todo := todo - {k};
    }
  }

  lemma UnitReport(c: map<NodeID, real>, m: map<NodeID, real>, max: real, z: real)
    requires m.Keys == c.Keys && z == if max > 0.0 then 1.0 / max else 0.0
    requires forall k :: k in m ==> m[k] == Normalized(true, c[k], 0.0, z) && 0.0 <= c[k] <= max
    requires max > 0.0 ==> exists k :: k in c && c[k] == max
    ensures forall k :: k in m ==> 0.0 <= m[k] <= 1.0 && m[k] * max == c[k]
    ensures max > 0.0 ==> exists k :: k in m && m[k] == 1.0
    ensures max == 0.0 ==> forall k :: k in m ==> m[k] == 0.0
  {
    AllInUnitInterval(c, m, max, z);
    if max > 0.0 {
      var k :| k in c && c[k] == max;
      assert k in m && m[k] == 1.0;
    }
  }

  lemma AllInUnitInterval(c: map<NodeID, real>, m: map<NodeID, real>, max: real, z: real)
    requires m.Keys == c.Keys && z == if max > 0.0 then 1.0 / max else 0.0
    requires forall k :: k in m ==> m[k] == Normalized(true, c[k], 0.0, z) && 0.0 <= c[k] <= max
    ensures forall k :: k in m ==> 0.0 <= m[k] <= 1.0 && m[k] * max == c[k]
    ensures forall k :: k in m && c[k] == max > 0.0 ==> m[k] == 1.0
  {
    forall k | k in m ensures 0.0 <= m[k] <= 1.0 && m[k] * max == c[k] && (c[k] == max > 0.0 ==> m[k] == 1.0) {
      UnitInterval(c[k], max, z);
    }
  }

  /** One value as GetMetric reports it. */
  function Normalized(normalize: bool, v: real, min: real, z: real): real {
    if normalize then (v - min) * z else v
  }

  lemma UnitInterval(v: real, max: real, z: real)
    requires 0.0 <= v <= max && z == if max > 0.0 then 1.0 / max else 0.0
    ensures 0.0 <= v * z <= 1.0 && (v * z) * max == v
    ensures v == max > 0.0 ==> v * z == 1.0
  {
    if max > 0.0 {
      assert z * max == 1.0;
      assert v * z == v / max;
      Reassociate(v, z, max);
    }
  }

  lemma Reassociate(v: real, z: real, max: real)
    ensures (v * z) * max == v * (z * max)
  {}
}
