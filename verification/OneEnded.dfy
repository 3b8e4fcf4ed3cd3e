/** A channel graph whose iteration leaves out channels at the end that has no outgoing policy. Halving the score is
    then wrong. */
module OneEnded {
  import opened Bytes
  import opened Sums
  import opened ShortestPaths
  import opened Dependencies
  import opened Search
  import opened Centrality
  import opened SimpleGraphs
  import opened Metric
  import opened Undirected

  /** Three nodes in a row, each channel listed at its first end only. */
  function InARow(a: NodeID, b: NodeID, c: NodeID): seq<Visit> {
    [Visit(a, [b]), Visit(b, [c]), Visit(c, [])]
  }

  const CHAIN: Graph := [[1], [2], []]

  lemma ChainFaithful(a: NodeID, b: NodeID, c: NodeID)
    requires a != b && b != c && a != c
    ensures Faithful(InARow(a, b, c), SimpleGraph([a, b, c], CHAIN))
  {
    ChainPeers(a, b, c);
    ChainMet(a, b, c);
    assert Closed(CHAIN);
    var nodes := [a, b, c];
    assert Row(nodes, CHAIN[0], [b]) && Row(nodes, CHAIN[1], [c]) && Row(nodes, CHAIN[2], []);
    forall u | 0 <= u < |nodes| ensures Row(nodes, CHAIN[u], PeersOf(InARow(a, b, c), nodes[u])) {
      assert u == 0 || u == 1 || u == 2;
    }
  }

  lemma ChainOneEnded(a: NodeID, b: NodeID, c: NodeID)
    requires a != b && b != c && a != c
    ensures !BothEnds(InARow(a, b, c))
  {
    ChainPeers(a, b, c);
    assert multiset([b])[b] == 1 && multiset([c])[a] == 0;
  }

  lemma ChainPeers(a: NodeID, b: NodeID, c: NodeID)
    requires a != b && b != c && a != c
    ensures PeersOf(InARow(a, b, c), a) == [b]
    ensures PeersOf(InARow(a, b, c), b) == [c]
    ensures PeersOf(InARow(a, b, c), c) == []
  {
    PeersOfOnce(InARow(a, b, c), 0);
    PeersOfOnce(InARow(a, b, c), 1);
    PeersOfOnce(InARow(a, b, c), 2);
  }

  lemma MetNext(visits: seq<Visit>, v: Visit)
    ensures Met(visits + [v]) == Met(visits) + [v.node] + v.peers
  {
    assert (visits + [v])[..|visits|] == visits;
  }

  lemma KeysMet(a: NodeID, b: NodeID, c: NodeID)
    ensures Met(InARow(a, b, c)) == [a, b, b, c, c]
  {
    var v1, v2, v3 := Visit(a, [b]), Visit(b, [c]), Visit(c, []);
    MetNext([], v1);
    assert [] + [v1] == [v1];
    MetNext([v1], v2);
    assert [v1] + [v2] == [v1, v2];
    MetNext([v1, v2], v3);
    assert [v1, v2] + [v3] == [v1, v2, v3];
  }

  lemma FirstsNext(keys: seq<NodeID>, key: NodeID, firsts: seq<NodeID>, more: seq<NodeID>)
    requires Firsts(keys) == firsts && more == keys + [key]
    ensures Firsts(more) == if key in firsts then firsts else firsts + [key]
  {
    FirstsPrefix(keys, key);
  }

  lemma ChainMet(a: NodeID, b: NodeID, c: NodeID)
    requires a != b && b != c && a != c
    ensures Firsts(Met(InARow(a, b, c))) == [a, b, c]
  {
    KeysMet(a, b, c);
    FirstsNext([], a, [], [a]);
    FirstsNext([a], b, [a], [a, b]);
    FirstsNext([a, b], b, [a, b], [a, b, b]);
    FirstsNext([a, b, b], c, [a, b], [a, b, b, c]);
    FirstsNext([a, b, b, c], c, [a, b, c], [a, b, b, c, c]);
  }

  lemma ChainChannels(u: int, v: int)
    ensures Channels(CHAIN, u, v) == if (u == 0 && v == 1) || (u == 1 && v == 2) then 1 else 0
  {
  }

  lemma ChainAhead()
    ensures Dist(CHAIN, 0, 0) == 0 && Dist(CHAIN, 0, 1) == 1 && Dist(CHAIN, 0, 2) == 2
  {
    SourceDist(CHAIN, 0);
    ChainChannels(0, 1);
    AdjacentBound(CHAIN, 0, 0, 1);
    var u := PredecessorExists(CHAIN, 0, 1);
    ChainChannels(u, 1);
    ChainChannels(1, 2);
    AdjacentBound(CHAIN, 0, 1, 2);
    u := PredecessorExists(CHAIN, 0, 2);
    ChainChannels(u, 2);
  }

  lemma ChainBehind()
    ensures Dist(CHAIN, 2, 1) < 0
  {
    if Dist(CHAIN, 2, 1) >= 0 {
      var u := PredecessorExists(CHAIN, 2, 1);
      ChainChannels(u, 1);
      u := PredecessorExists(CHAIN, 2, 0);
      ChainChannels(u, 0);
    }
  }

  /** All shortest paths from the first node to the last pass the middle one. */
  lemma ChainDependency()
    ensures Dependency(CHAIN, 0, 1) == 1.0 && Dependency(CHAIN, 2, 1) == 0.0
  {
    ChainAhead();
    TotalDependency(CHAIN, 0);
    SourceDependency(CHAIN, 0);
    LastDependsOnNothing();
    SumOfThree(AllDependencies(CHAIN, 0));
    SumOfThree(Distances(CHAIN, 0));
    SumOfThree(Reached(CHAIN, 0));
    ChainBehind();
    UnreachableDependency(CHAIN, 2, 1);
  }

  lemma LastDependsOnNothing()
    ensures Dependency(CHAIN, 0, 2) == 0.0
  {
    ChainAhead();
    Recurrence(CHAIN, 0, 2);
    SumSingle(3, 3, Contributions(CHAIN, 0, 2));
  }

  lemma SumOfThree(f: int -> real)
    ensures Sum(3, f) == f(0) + f(1) + f(2)
  {
    assert Sum(2, f) == Sum(1, f) + f(1);
  }

  lemma MiddlePair()
    ensures PairDependency(CHAIN, 0, 1, 2) == 1.0
  {
    ChainDependency();
    SumOfThree(Pairs(CHAIN, 0, 1));
    Apart(CHAIN, 0, 1);
  }

  lemma MiddleBetweenness()
    ensures Betweenness(CHAIN, 1) == 1.0
  {
    MiddlePair();
    var p := PairTable(CHAIN, 1);
    SumOfThree(UpperColumns(p));
    assert Sum(0, Column(p, 0)) == 0.0;
    assert Sum(1, Column(p, 1)) == Sum(0, Column(p, 1)) + p(0)(1);
    assert Sum(2, Column(p, 2)) == Sum(1, Column(p, 2)) + p(1)(2);
    assert Sum(1, Column(p, 2)) == Sum(0, Column(p, 2)) + p(0)(2);
  }

  /** Refresh stores one half for the middle node, whose betweenness centrality is 1. */
  lemma HalvedTooMuch(a: NodeID, b: NodeID, c: NodeID)
    requires a != b && b != c && a != c
    ensures Faithful(InARow(a, b, c), SimpleGraph([a, b, c], CHAIN)) && !BothEnds(InARow(a, b, c))
    ensures Score(CHAIN, 1) / 2.0 == 0.5 && Betweenness(CHAIN, 1) == 1.0
  {
    ChainFaithful(a, b, c);
    ChainOneEnded(a, b, c);
    ChainDependency();
    SumOfThree(Sources(CHAIN, 1));
    MiddleBetweenness();
  }
}
