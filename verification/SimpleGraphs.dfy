/** autopilot.NewSimpleGraph: replacing node keys by indices in the order in which they are met. */
module SimpleGraphs {
  import opened Options
  import opened Bytes
  import opened ShortestPaths

  /** One call of the ForEachNode closure: a node and the peers of its channels, in order. */
  datatype Visit = Visit(node: NodeID, peers: seq<NodeID>)

  datatype SimpleGraph = SimpleGraph(nodes: seq<NodeID>, adj: Graph)

  /** All keys in the order in which the iteration meets them. */
  ghost function Met(visits: seq<Visit>): seq<NodeID> {
    if visits == [] then []
    else Met(visits[..|visits| - 1]) + [visits[|visits| - 1].node] + visits[|visits| - 1].peers
  }

  /** The first occurrences, in order. */
  ghost function Firsts(keys: seq<NodeID>): seq<NodeID> {
    if keys == [] then []
    else
      var f := Firsts(keys[..|keys| - 1]);
      if keys[|keys| - 1] in f then f else f + [keys[|keys| - 1]]
  }

  /** The peers of all channels listed for a node, in order. */
  ghost function PeersOf(visits: seq<Visit>, node: NodeID): seq<NodeID> {
    if visits == [] then []
    else PeersOf(visits[..|visits| - 1], node)
         + if visits[|visits| - 1].node == node then visits[|visits| - 1].peers else []
  }

  /** The indices stand for exactly these keys. */
  ghost predicate Row(nodes: seq<NodeID>, indices: seq<int>, keys: seq<NodeID>) {
    |indices| == |keys| && forall i :: 0 <= i < |indices| ==> 0 <= indices[i] < |nodes| && nodes[indices[i]] == keys[i]
  }

  /** The re-indexed graph says exactly what the iteration said. */
  ghost predicate Faithful(visits: seq<Visit>, g: SimpleGraph) {
    && |g.nodes| == |g.adj| && Closed(g.adj)
    && g.nodes == Firsts(Met(visits))
    && forall u :: 0 <= u < |g.nodes| ==> Row(g.nodes, g.adj[u], PeersOf(visits, g.nodes[u]))
  }

  ghost predicate NoRepeats(s: seq<NodeID>) {
    forall i, j :: 0 <= i < j < |s| ==> s[i] != s[j]
  }

  /** Indices are a bijection with the keys met. */
  lemma {:induction false} FirstsOnce(keys: seq<NodeID>)
    ensures NoRepeats(Firsts(keys))
    ensures forall k :: k in Firsts(keys) <==> k in keys
  {
    if keys != [] {
      FirstsOnce(keys[..|keys| - 1]);
      assert keys == keys[..|keys| - 1] + [keys[|keys| - 1]];
    }
  }

  lemma {:induction false} PeersOfUnvisited(visits: seq<Visit>, node: NodeID)
    requires forall i :: 0 <= i < |visits| ==> visits[i].node != node
    ensures PeersOf(visits, node) == []
  {
    if visits != [] { PeersOfUnvisited(visits[..|visits| - 1], node); }
  }

  /** A node that is visited once has exactly the peers of that visit. */
  lemma {:induction false} PeersOfOnce(visits: seq<Visit>, i: nat)
    requires i < |visits| && forall j :: 0 <= j < |visits| && j != i ==> visits[j].node != visits[i].node
    ensures PeersOf(visits, visits[i].node) == visits[i].peers
  {
    var init := visits[..|visits| - 1];
    if i == |visits| - 1 {
      PeersOfUnvisited(init, visits[i].node);
    } else {
      PeersOfOnce(init, i);
    }
  }

  // ----- the maps of NewSimpleGraph

  /** `nodes` maps the keys met so far to their positions in `order`. */
  ghost predicate Indexed(order: seq<NodeID>, nodes: map<NodeID, int>) {
    && NoRepeats(order)
    && (forall i :: 0 <= i < |order| ==> order[i] in nodes && nodes[order[i]] == i)
    && (forall k :: k in nodes ==> k in order)
  }

  /** `adj` holds, for every node met, the indices of the peers in its list. */
  ghost predicate Listed(order: seq<NodeID>, adj: map<int, seq<int>>, lists: NodeID -> seq<NodeID>) {
    && (forall u :: u in adj ==> 0 <= u < |order|)
    && (forall u :: 0 <= u < |order| ==> Row(order, AdjOf(adj, u), lists(order[u])))
  }

  /** The peers listed by the visits. */
  ghost function ListsOf(visits: seq<Visit>): NodeID -> seq<NodeID> {
    k => PeersOf(visits, k)
  }

  /** Reading a missing entry of a Go map gives the empty slice. */
  function AdjOf(adj: map<int, seq<int>>, u: int): seq<int> {
    if u in adj then adj[u] else []
  }

  /** Keys that have an index keep it. */
  ghost predicate SameIndices(nodes: map<NodeID, int>, nodes': map<NodeID, int>) {
    forall k :: k in nodes ==> k in nodes' && nodes'[k] == nodes[k]
  }

  /** Of the lists, only that of u has grown, by n entries at its end. */
  ghost predicate Appended(adj: map<int, seq<int>>, adj': map<int, seq<int>>, u: int, n: nat) {
    && (forall w :: w != u ==> AdjOf(adj', w) == AdjOf(adj, w))
    && AdjOf(adj, u) <= AdjOf(adj', u) && |AdjOf(adj', u)| == |AdjOf(adj, u)| + n
  }

  /** The getNodeIndex closure. */
  method NodeIndex(nodes: map<NodeID, int>, nextIndex: int, key: NodeID, ghost order: seq<NodeID>)
    returns (nodes': map<NodeID, int>, nextIndex': int, index: int, ghost order': seq<NodeID>)
    requires Indexed(order, nodes) && nextIndex == |order|
    ensures Indexed(order', nodes') && nextIndex' == |order'|
    ensures order' == if key in order then order else order + [key]
    ensures 0 <= index < |order'| && order'[index] == key
    ensures key in nodes' && nodes'[key] == index && SameIndices(nodes, nodes')
  {
    nodes', nextIndex', order' := nodes, nextIndex, order;
    if key !in nodes {
      nodes' := nodes[key := nextIndex];
      index := nextIndex;
      nextIndex' := nextIndex + 1;
      order' := order + [key];
    } else {
      index := nodes[key];
    }
  }

  lemma {:induction false} FirstsPrefix(keys: seq<NodeID>, key: NodeID)
    ensures Firsts(keys + [key]) == if key in Firsts(keys) then Firsts(keys) else Firsts(keys) + [key]
  {
    assert (keys + [key])[..|keys|] == keys;
  }

  /** Meeting a new key does not change the keys behind the indices already used. */
  lemma Extended(order: seq<NodeID>, order': seq<NodeID>, key: NodeID, adj: map<int, seq<int>>,
                 lists: NodeID -> seq<NodeID>)
    requires Listed(order, adj, lists)
    requires order' == if key in order then order else order + [key]
    requires key !in order ==> lists(key) == []
    ensures Listed(order', adj, lists)
  {
    forall u | 0 <= u < |order'| ensures Row(order', AdjOf(adj, u), lists(order'[u])) {
      if u < |order| { assert Row(order, AdjOf(adj, u), lists(order[u])); }
    }
  }

  /** A node that has not been met has not been visited. */
  lemma {:induction false} UnmetUnvisited(visits: seq<Visit>, key: NodeID)
    requires key !in Met(visits)
    ensures PeersOf(visits, key) == []
  {
    if visits != [] {
      UnmetUnvisited(visits[..|visits| - 1], key);
    }
  }

  lemma RowAppended(order: seq<NodeID>, adj: map<int, seq<int>>, u: int, v: int,
                    lists: NodeID -> seq<NodeID>, lists': NodeID -> seq<NodeID>)
    requires Listed(order, adj, lists) && NoRepeats(order) && 0 <= u < |order| && 0 <= v < |order|
    requires forall k :: k != order[u] ==> lists'(k) == lists(k)
    requires lists'(order[u]) == lists(order[u]) + [order[v]]
    ensures Listed(order, adj[u := AdjOf(adj, u) + [v]], lists')
  {
    var adj' := adj[u := AdjOf(adj, u) + [v]];
    forall x | 0 <= x < |order| ensures Row(order, AdjOf(adj', x), lists'(order[x])) {
      assert Row(order, AdjOf(adj, x), lists(order[x]));
      if x == u { RowGrows(order, AdjOf(adj, u), lists(order[u]), v); }
    }
  }

  /** The maps after the visits `seen`, the last of which may be cut short. */
  ghost predicate Building(seen: seq<Visit>, order: seq<NodeID>, adj: map<int, seq<int>>) {
    order == Firsts(Met(seen)) && Listed(order, adj, ListsOf(seen))
  }

  /** Indexing a key when it is met. */
  lemma KeyMet(seen: seq<Visit>, key: NodeID, order: seq<NodeID>, order': seq<NodeID>, adj: map<int, seq<int>>)
    requires Building(seen, order, adj)
    requires order' == if key in order then order else order + [key]
    ensures order' == Firsts(Met(seen) + [key]) && Listed(order', adj, ListsOf(seen))
  {
    FirstsPrefix(Met(seen), key);
    FirstsOnce(Met(seen));
    if key !in order { UnmetUnvisited(seen, key); }
    Extended(order, order', key, adj, ListsOf(seen));
  }

  lemma MeetNode(seen: seq<Visit>, order: seq<NodeID>, order': seq<NodeID>, adj: map<int, seq<int>>, node: NodeID)
    requires Building(seen, order, adj)
    requires order' == if node in order then order else order + [node]
    ensures Building(seen + [Visit(node, [])], order', adj)
  {
    var seen' := seen + [Visit(node, [])];
    assert seen'[..|seen|] == seen;
    assert Met(seen') == Met(seen) + [node];
    KeyMet(seen, node, order, order', adj);
    SameLists(order', adj, ListsOf(seen), ListsOf(seen'));
  }

  lemma SameLists(order: seq<NodeID>, adj: map<int, seq<int>>, lists: NodeID -> seq<NodeID>, lists': NodeID -> seq<NodeID>)
    requires Listed(order, adj, lists) && forall k :: lists'(k) == lists(k)
    ensures Listed(order, adj, lists')
  {}

  /** `now` lists one more channel than `was`, from node to peer. */
  ghost predicate OneMore(was: seq<Visit>, now: seq<Visit>, node: NodeID, peer: NodeID) {
    && Met(now) == Met(was) + [peer]
    && (forall k :: k != node ==> ListsOf(now)(k) == ListsOf(was)(k))
    && ListsOf(now)(node) == ListsOf(was)(node) + [peer]
  }

  /** The visits up to the j-th channel of the i-th node. */
  ghost function UpTo(visits: seq<Visit>, i: int, j: int): seq<Visit>
    requires 0 <= i < |visits| && 0 <= j <= |visits[i].peers|
  {
    visits[..i] + [Visit(visits[i].node, visits[i].peers[..j])]
  }

  lemma UpToNext(visits: seq<Visit>, i: int, j: int)
    requires 0 <= i < |visits| && 0 <= j < |visits[i].peers|
    ensures OneMore(UpTo(visits, i, j), UpTo(visits, i, j + 1), visits[i].node, visits[i].peers[j])
  {
    assert UpTo(visits, i, j)[..i] == visits[..i] && UpTo(visits, i, j + 1)[..i] == visits[..i];
    assert visits[i].peers[..j + 1] == visits[i].peers[..j] + [visits[i].peers[j]];
  }

  lemma UpToEnds(visits: seq<Visit>, i: int)
    requires 0 <= i < |visits|
    ensures UpTo(visits, i, 0) == visits[..i] + [Visit(visits[i].node, [])]
    ensures UpTo(visits, i, |visits[i].peers|) == visits[..i + 1]
  {
    assert visits[i].peers[..|visits[i].peers|] == visits[i].peers;
  }

  lemma MeetPeer(was: seq<Visit>, now: seq<Visit>, node: NodeID, peer: NodeID, order: seq<NodeID>,
                 order': seq<NodeID>, adj: map<int, seq<int>>, u: int, v: int)
    requires Building(was, order, adj) && OneMore(was, now, node, peer) && NoRepeats(order')
    requires order' == if peer in order then order else order + [peer]
    requires 0 <= u < |order| && order[u] == node && 0 <= v < |order'| && order'[v] == peer
    ensures Building(now, order', adj[u := AdjOf(adj, u) + [v]])
  {
    KeyMet(was, peer, order, order', adj);
    RowAppended(order', adj, u, v, ListsOf(was), ListsOf(now));
  }

  lemma RowGrows(order: seq<NodeID>, indices: seq<int>, keys: seq<NodeID>, v: int)
    requires Row(order, indices, keys) && 0 <= v < |order|
    ensures Row(order, indices + [v], keys + [order[v]])
  {}

  lemma AppendedOne(adj: map<int, seq<int>>, adj': map<int, seq<int>>, u: int, v: int)
    requires adj' == adj[u := AdjOf(adj, u) + [v]]
    ensures Appended(adj, adj', u, 1)
  {
  }

  method AppendPeer(nodes: map<NodeID, int>, nextIndex: int, adj: map<int, seq<int>>, u: int, peer: NodeID,
                    ghost order: seq<NodeID>)
    returns (nodes': map<NodeID, int>, nextIndex': int, adj': map<int, seq<int>>, ghost order': seq<NodeID>, ghost v: int)
    requires Indexed(order, nodes) && nextIndex == |order|
    ensures Indexed(order', nodes') && nextIndex' == |order'| && SameIndices(nodes, nodes')
    ensures order' == if peer in order then order else order + [peer]
    ensures 0 <= v < |order'| && order'[v] == peer
    ensures adj' == adj[u := AdjOf(adj, u) + [v]] && Appended(adj, adj', u, 1)
  {
    var index: int;
    nodes', nextIndex', index, order' := NodeIndex(nodes, nextIndex, peer, order);
    adj' := adj[u := AdjOf(adj, u) + [index]];
    v := index;
    AppendedOne(adj, adj', u, v);
  }

  /** One call of the inner closure: indexing a peer and appending it to the node's list. */
  method ListPeer(nodes: map<NodeID, int>, nextIndex: int, adj: map<int, seq<int>>, u: int, peer: NodeID,
                  ghost order: seq<NodeID>, ghost was: seq<Visit>, ghost now: seq<Visit>)
    returns (nodes': map<NodeID, int>, nextIndex': int, adj': map<int, seq<int>>, ghost order': seq<NodeID>)
    requires Indexed(order, nodes) && nextIndex == |order| && 0 <= u < |order|
    requires Building(was, order, adj) && OneMore(was, now, order[u], peer)
    ensures Indexed(order', nodes') && nextIndex' == |order'| && u < |order'| && order'[u] == order[u]
    ensures Building(now, order', adj')
    ensures SameIndices(nodes, nodes') && Appended(adj, adj', u, 1)
  {
    ghost var v;
    nodes', nextIndex', adj', order', v := AppendPeer(nodes, nextIndex, adj, u, peer, order);
    MeetPeer(was, now, order[u], peer, order, order', adj, u, v);
  }

  /** The ForEachChannel loop of the i-th node. */
  method ListPeers(visits: seq<Visit>, i: int, nodes: map<NodeID, int>, nextIndex: int, adj: map<int, seq<int>>,
                   u: int, ghost order: seq<NodeID>)
    returns (nodes': map<NodeID, int>, nextIndex': int, adj': map<int, seq<int>>, ghost order': seq<NodeID>)
    requires 0 <= i < |visits| && Indexed(order, nodes) && nextIndex == |order|
    requires 0 <= u < |order| && order[u] == visits[i].node
    requires Building(UpTo(visits, i, 0), order, adj)
    ensures Indexed(order', nodes') && nextIndex' == |order'|
    ensures Building(UpTo(visits, i, |visits[i].peers|), order', adj')
    ensures SameIndices(nodes, nodes') && Appended(adj, adj', u, |visits[i].peers|)
  {
    nodes', nextIndex', adj', order' := nodes, nextIndex, adj, order;
    ghost var was := UpTo(visits, i, 0);
    for j := 0 to |visits[i].peers|
      invariant Indexed(order', nodes') && nextIndex' == |order'|
      invariant 0 <= u < |order'| && order'[u] == visits[i].node
      invariant was == UpTo(visits, i, j) && Building(was, order', adj')
      invariant SameIndices(nodes, nodes') && Appended(adj, adj', u, j)
    {
      UpToNext(visits, i, j);
      ghost var now := UpTo(visits, i, j + 1);
      nodes', nextIndex', adj', order' :=
        ListPeer(nodes', nextIndex', adj', u, visits[i].peers[j], order', was, now);
      was := now;
    }
  }

  /** NewSimpleGraph: nil when the iteration fails, and otherwise the re-indexed graph. The final
      range over the map of nodes visits the keys in an arbitrary order. */
  method NewSimpleGraph(visits: seq<Visit>, failed: bool) returns (r: Option<SimpleGraph>)
    ensures failed ==> r == None
    ensures !failed ==> r.Some? && Faithful(visits, r.value)
  {
    var nodes: map<NodeID, int>, adj: map<int, seq<int>>, nextIndex := map[], map[], 0;
    ghost var order: seq<NodeID> := [];
    for i := 0 to |visits|
      invariant Indexed(order, nodes) && nextIndex == |order|
      invariant Building(visits[..i], order, adj)
    {
      var u: int;
      ghost var before := order;
      nodes, nextIndex, u, order := NodeIndex(nodes, nextIndex, visits[i].node, order);
      MeetNode(visits[..i], before, order, adj, visits[i].node);
      UpToEnds(visits, i);
      nodes, nextIndex, adj, order := ListPeers(visits, i, nodes, nextIndex, adj, u, order);
    }
    assert visits[..|visits|] == visits;
    if failed { return None; }
    var ids, rows := Fill(nodes, adj, order);
    FilledFaithful(visits, order, adj, rows);
    r := Some(SimpleGraph(ids, rows));
  }

  lemma FilledFaithful(visits: seq<Visit>, order: seq<NodeID>, adj: map<int, seq<int>>, rows: seq<seq<int>>)
    requires Building(visits, order, adj) && |rows| == |order|
    requires forall u :: 0 <= u < |order| ==> rows[u] == AdjOf(adj, u)
    ensures Faithful(visits, SimpleGraph(order, rows))
  {
    forall u | 0 <= u < |order| ensures Row(order, rows[u], PeersOf(visits, order[u])) {
      assert Row(order, AdjOf(adj, u), ListsOf(visits)(order[u]));
    }
  }

  /** Filling the slices from the maps. */
  method Fill(nodes: map<NodeID, int>, adj: map<int, seq<int>>, ghost order: seq<NodeID>)
    returns (ids: seq<NodeID>, rows: seq<seq<int>>)
    requires Indexed(order, nodes)
    ensures ids == order && |rows| == |order|
    ensures forall u :: 0 <= u < |order| ==> rows[u] == AdjOf(adj, u)
  {
    SizeOf(order, nodes);
    var graphNodes := new NodeID[|nodes|](_ => NodeID([]));
    var graphAdj := new seq<int>[|nodes|](_ => []);
    var todo := nodes.Keys;
    while todo != {}
      invariant todo <= nodes.Keys
      invariant forall k :: k in nodes && k !in todo ==>
        graphNodes[nodes[k]] == k && graphAdj[nodes[k]] == AdjOf(adj, nodes[k])
    {
      var nodeID :| nodeID in todo;
      var nodeIndex := nodes[nodeID];
      graphAdj[nodeIndex] := AdjOf(adj, nodeIndex);
      graphNodes[nodeIndex] := nodeID;
      todo := todo - {nodeID};
    }
    ids, rows := graphNodes[..], graphAdj[..];
    forall i | 0 <= i < |order| ensures ids[i] == order[i] && rows[i] == AdjOf(adj, i) {
      assert order[i] in nodes && nodes[order[i]] == i;
    }
  }

  lemma {:induction false} SizeOf(order: seq<NodeID>, nodes: map<NodeID, int>)
    requires Indexed(order, nodes)
    ensures |nodes| == |order|
    ensures forall k :: k in nodes ==> 0 <= nodes[k] < |order| && order[nodes[k]] == k
  {
    KeysSize(order, nodes.Keys);
  }

  lemma {:induction false} KeysSize(order: seq<NodeID>, keys: set<NodeID>)
    requires NoRepeats(order) && forall k :: k in keys <==> k in order
    ensures |keys| == |order|
  {
    if order == [] {
      assert keys == {};
    } else {
      var last := order[|order| - 1];
      assert order == order[..|order| - 1] + [last];
      KeysSize(order[..|order| - 1], keys - {last});
    }
  }
}
