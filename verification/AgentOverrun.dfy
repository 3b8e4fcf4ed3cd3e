/** The limit on channels over arbitrary runs: nodes the agent is still connecting to are not counted when the
    controller hands out slots, so any agent that may open a channel at all may open too many. */
module AgentOverrun {
  import opened Bytes
  import opened Agent
  import opened AgentLimits

  /** Nodes that the agent can connect to, without repetition. */
  ghost predicate Reachable(c: Config, nodes: seq<NodeID>) {
    && (forall i :: 0 <= i < |nodes| ==> c.parses(nodes[i]))
    && (forall i, j :: 0 <= i < j < |nodes| ==> nodes[i] != nodes[j])
  }

  /** The nodes from i on. */
  ghost function From(nodes: seq<NodeID>, i: nat): set<NodeID> {
    set j | i <= j < |nodes| :: nodes[j]
  }

  /** Channels 0 to i - 1, one to each of the first i nodes. */
  ghost function Listed(nodes: seq<NodeID>, i: nat): map<nat, NodeID>
    requires i <= |nodes|
  {
    if i == 0 then map[] else Listed(nodes, i - 1)[i - 1 := nodes[i - 1]]
  }

  lemma {:induction false} ListedCount(nodes: seq<NodeID>, i: nat)
    requires i <= |nodes|
    ensures |Listed(nodes, i)| == i && forall id :: id in Listed(nodes, i) ==> id < i
  {
    if i > 0 {
      ListedCount(nodes, i - 1);
    }
  }

  /** Some nodes are connecting, and no channel is pending. */
  ghost function Waiting(a: set<NodeID>, chans: map<nat, NodeID>): State {
    State(a, multiset(a), {}, multiset{}, {}, chans, Idle)
  }

  /** One round for each node. */
  ghost function Gathering(nodes: seq<NodeID>): seq<Event> {
    if nodes == [] then []
    else Gathering(nodes[..|nodes| - 1]) + [Tally(true), Choose({nodes[|nodes| - 1]}), Dispatch]
  }

  /** The first i nodes connect and get their channels. */
  ghost function Opening(nodes: seq<NodeID>, i: nat): seq<Event>
    requires i <= |nodes|
  {
    if i == 0 then [] else Opening(nodes, i - 1) + [Connected(nodes[i - 1]), ChanOpened(i - 1, nodes[i - 1], true)]
  }

  lemma FromLast(nodes: seq<NodeID>)
    requires nodes != [] && forall i, j :: 0 <= i < j < |nodes| ==> nodes[i] != nodes[j]
    ensures var init, n := nodes[..|nodes| - 1], nodes[|nodes| - 1];
      From(nodes, 0) == From(init, 0) + {n} && n !in From(init, 0)
  {
    var init, n := nodes[..|nodes| - 1], nodes[|nodes| - 1];
    assert forall j :: 0 <= j < |init| ==> nodes[j] == init[j];
    forall x | x in From(nodes, 0) ensures x in From(init, 0) + {n} {
      var j :| 0 <= j < |nodes| && nodes[j] == x;
      if j < |init| { assert init[j] == x; }
    }
  }

  lemma FromNext(nodes: seq<NodeID>, i: nat)
    requires i < |nodes| && forall i, j :: 0 <= i < j < |nodes| ==> nodes[i] != nodes[j]
    ensures From(nodes, i) == From(nodes, i + 1) + {nodes[i]} && nodes[i] !in From(nodes, i + 1)
  {
  }

  /** While nobody has connected, the tally finds no channel. */
  lemma TallyOne(c: Config, a: set<NodeID>)
    requires c.chanLimit > 0
    ensures Step(c, Waiting(a, map[]), Tally(true)) == Waiting(a, map[]).(phase := Tallied(c.chanLimit))
  {
    assert Total(Waiting(a, map[])) == 0;
  }

  lemma ChooseOne(c: Config, a: set<NodeID>, n: NodeID, slots: nat)
    requires n !in a && slots > 0
    ensures Step(c, Waiting(a, map[]).(phase := Tallied(slots)), Choose({n})) == Waiting(a, map[]).(phase := Chosen({n}))
  {
    var s := Waiting(a, map[]).(phase := Tallied(slots));
    assert Skipped(s) == a;
  }

  lemma DispatchOne(c: Config, a: set<NodeID>, n: NodeID)
    requires n !in a && c.maxPendingOpens > 0
    ensures Step(c, Waiting(a, map[]).(phase := Chosen({n})), Dispatch) == Waiting(a + {n}, map[])
  {
    PutIn(a, n);
    assert {n} - a == {n};
  }

  lemma GatherOne(c: Config, s: State, es: seq<Event>, a: set<NodeID>, n: NodeID)
    requires n !in a && c.chanLimit > 0 && c.maxPendingOpens > 0 && Run(c, s, es) == Waiting(a, map[])
    ensures Run(c, s, es + [Tally(true), Choose({n}), Dispatch]) == Waiting(a + {n}, map[])
  {
    TallyOne(c, a);
    RunOne(c, s, es, Tally(true));
    ChooseOne(c, a, n, c.chanLimit);
    RunOne(c, s, es + [Tally(true)], Choose({n}));
    DispatchOne(c, a, n);
    RunOne(c, s, es + [Tally(true)] + [Choose({n})], Dispatch);
    assert es + [Tally(true), Choose({n}), Dispatch] == es + [Tally(true)] + [Choose({n})] + [Dispatch];
  }

  lemma {:induction false} Gathered(c: Config, nodes: seq<NodeID>)
    requires c.chanLimit > 0 && c.maxPendingOpens > 0 && Reachable(c, nodes)
    ensures Run(c, Initial(map[]), Gathering(nodes)) == Waiting(From(nodes, 0), map[])
    decreases |nodes|
  {
    if nodes == [] {
      assert From(nodes, 0) == {};
    } else {
      var init, n := nodes[..|nodes| - 1], nodes[|nodes| - 1];
      Gathered(c, init);
      FromLast(nodes);
      GatherOne(c, Initial(map[]), Gathering(init), From(init, 0), n);
    }
  }

  lemma ConnectOne(c: Config, a: set<NodeID>, n: NodeID, chans: map<nat, NodeID>)
    requires n !in a && c.maxPendingOpens > 0 && c.parses(n)
    ensures Step(c, Waiting(a + {n}, chans), Connected(n))
         == Waiting(a, chans).(pendingOpens := {n}, opening := multiset{n})
  {
    var s := Waiting(a + {n}, chans);
    PutIn(a, n);
    assert s.pendingConns - {n} == a && s.connecting - multiset{n} == multiset(a);
    assert s.pendingOpens + {n} == {n} && s.opening + multiset{n} == multiset{n};
  }

  lemma OpenOne(c: Config, s: State, es: seq<Event>, a: set<NodeID>, n: NodeID, chans: map<nat, NodeID>, id: nat)
    requires n !in a && c.maxPendingOpens > 0 && c.parses(n) && Run(c, s, es) == Waiting(a + {n}, chans)
    ensures Run(c, s, es + [Connected(n), ChanOpened(id, n, true)]) == Waiting(a, chans[id := n])
  {
    ConnectOne(c, a, n, chans);
    RunOne(c, s, es, Connected(n));
    assert {n} - {n} == {};
    RunOne(c, s, es + [Connected(n)], ChanOpened(id, n, true));
    assert es + [Connected(n), ChanOpened(id, n, true)] == es + [Connected(n)] + [ChanOpened(id, n, true)];
  }

  /** The nodes have been gathered and the first i have their channels. */
  ghost predicate OpenedAfter(c: Config, nodes: seq<NodeID>, i: nat, es: seq<Event>)
    requires i <= |nodes|
  {
    Run(c, Initial(map[]), es) == Waiting(From(nodes, i), Listed(nodes, i))
  }

  lemma {:induction false} Opened(c: Config, nodes: seq<NodeID>, i: nat)
    requires i <= |nodes| && c.chanLimit > 0 && c.maxPendingOpens > 0 && Reachable(c, nodes)
    ensures OpenedAfter(c, nodes, i, Gathering(nodes) + Opening(nodes, i))
    decreases i
  {
    if i == 0 {
      OpenedNone(c, nodes, Gathering(nodes) + Opening(nodes, 0));
    } else {
      Opened(c, nodes, i - 1);
      OpenedNext(c, nodes, i - 1, Gathering(nodes), Gathering(nodes) + Opening(nodes, i - 1));
    }
  }

  lemma OpenedNone(c: Config, nodes: seq<NodeID>, es: seq<Event>)
    requires c.chanLimit > 0 && c.maxPendingOpens > 0 && Reachable(c, nodes) && es == Gathering(nodes) + Opening(nodes, 0)
    ensures OpenedAfter(c, nodes, 0, es)
  {
    Gathered(c, nodes);
    assert es == Gathering(nodes);
  }

  lemma OpeningNext(nodes: seq<NodeID>, i: nat, es: seq<Event>)
    requires i < |nodes|
    ensures es + Opening(nodes, i + 1) == es + Opening(nodes, i) + [Connected(nodes[i]), ChanOpened(i, nodes[i], true)]
  {
  }

  lemma OpenedNext(c: Config, nodes: seq<NodeID>, i: nat, start: seq<Event>, es: seq<Event>)
    requires i < |nodes| && c.maxPendingOpens > 0 && Reachable(c, nodes)
    requires es == start + Opening(nodes, i) && OpenedAfter(c, nodes, i, es)
    ensures OpenedAfter(c, nodes, i + 1, start + Opening(nodes, i + 1))
  {
    OpeningNext(nodes, i, start);
    FromNext(nodes, i);
    OpenOne(c, Initial(map[]), es, From(nodes, i + 1), nodes[i], Listed(nodes, i), i);
  }

  lemma {:induction false} GatheredByAgent(nodes: seq<NodeID>)
    ensures ByAgent(Gathering(nodes))
    decreases |nodes|
  {
    if nodes != [] { GatheredByAgent(nodes[..|nodes| - 1]); }
  }

  lemma {:induction false} OpenedByAgent(nodes: seq<NodeID>, i: nat)
    requires i <= |nodes|
    ensures ByAgent(Opening(nodes, i))
    decreases i
  {
    if i > 0 { OpenedByAgent(nodes, i - 1); }
  }

  ghost predicate ByAgent(es: seq<Event>) { forall i :: 0 <= i < |es| ==> AgentOnly(es[i]) }

  /** The limit holds whatever channels the agent starts with and however its steps interleave. */
  ghost predicate LimitHolds(c: Config) {
    forall chans: map<nat, NodeID>, es: seq<Event> ::
      |chans| <= c.chanLimit && ByAgent(es) ==> Total(Run(c, Initial(chans), es)) <= c.chanLimit
  }

  /** Any nodes that number one more than the limit can be connecting at once, and then each of them gets its
      channel. */
  lemma Overrun(c: Config, nodes: seq<NodeID>)
    requires c.chanLimit > 0 && c.maxPendingOpens > 0 && Reachable(c, nodes) && |nodes| == c.chanLimit + 1
    ensures var es := Gathering(nodes) + Opening(nodes, |nodes|);
      ByAgent(es) && Total(Run(c, Initial(map[]), es)) == c.chanLimit + 1
  {
    GatheredByAgent(nodes);
    OpenedByAgent(nodes, |nodes|);
    Opened(c, nodes, |nodes|);
    ListedCount(nodes, |nodes|);
  }

  /** No directive was ever sent. */
  ghost predicate Inert(c: Config, s: State) {
    && s.connecting == multiset{} && s.opening == multiset{} && s.pendingOpens == {}
    && (c.chanLimit == 0 ==> s.phase.Idle?)
    && |s.chanState| <= c.chanLimit
  }

  lemma {:induction false} StaysInert(c: Config, chans: map<nat, NodeID>, es: seq<Event>)
    requires (c.chanLimit == 0 || c.maxPendingOpens == 0) && |chans| <= c.chanLimit && ByAgent(es)
    ensures Inert(c, Run(c, Initial(chans), es))
    decreases |es|
  {
    if es != [] {
      var before, e := es[..|es| - 1], es[|es| - 1];
      StaysInert(c, chans, before);
      assert AgentOnly(e);
      if e.ChanClosed? { ClosedCount(Run(c, Initial(chans), before).chanState, e.ids); }
    }
  }

  /** With more reachable nodes than the limit, it is kept over every run exactly by the agents that can never
      open a channel. */
  lemma LimitIff(c: Config, nodes: seq<NodeID>)
    requires Reachable(c, nodes) && |nodes| == c.chanLimit + 1
    ensures LimitHolds(c) <==> c.chanLimit == 0 || c.maxPendingOpens == 0
  {
    if c.chanLimit == 0 || c.maxPendingOpens == 0 {
      forall chans: map<nat, NodeID>, es: seq<Event> | |chans| <= c.chanLimit && ByAgent(es)
        ensures Total(Run(c, Initial(chans), es)) <= c.chanLimit
      {
        StaysInert(c, chans, es);
      }
    } else {
      Overrun(c, nodes);
      var none: map<nat, NodeID>, es := map[], Gathering(nodes) + Opening(nodes, |nodes|);
      assert ByAgent(es) && Total(Run(c, Initial(none), es)) > c.chanLimit;
    }
  }

  /** Somebody else opens a channel to the node that the agent is connecting to. */
  ghost function Intruding(n: NodeID, id: nat, id': nat): seq<Event> {
    [Tally(true), Choose({n}), Dispatch] + [ChanOpened(id, n, false)] + [Connected(n)] + [ChanOpened(id', n, true)]
  }

  /** The agent does not look again, and ends up with a second channel to the node. */
  lemma DuplicateChannel(c: Config, n: NodeID, id: nat, id': nat)
    requires c.chanLimit > 0 && c.maxPendingOpens > 0 && c.parses(n) && id != id'
    ensures Run(c, Initial(map[]), Intruding(n, id, id')).chanState == map[id := n, id' := n]
  {
    var s, round := Initial(map[]), [Tally(true), Choose({n}), Dispatch];
    assert [] + round == round;
    GatherOne(c, s, [], {}, n);
    assert {} + {n} == {n};
    assert Run(c, s, round) == Waiting({n}, map[]);
    RunOne(c, s, round, ChanOpened(id, n, false));
    assert {} - {n} == {};
    assert Run(c, s, round + [ChanOpened(id, n, false)]) == Waiting({} + {n}, map[id := n]);
    ConnectOne(c, {}, n, map[id := n]);
    RunOne(c, s, round + [ChanOpened(id, n, false)], Connected(n));
    RunOne(c, s, round + [ChanOpened(id, n, false)] + [Connected(n)], ChanOpened(id', n, true));
  }

  /** The round in which the agent takes up a node whose key does not parse. */
  ghost function Misled(n: NodeID): seq<Event> {
    [Tally(true), Choose({n}), Dispatch] + [ParseFailed(n)]
  }

  /** Whatever happens afterwards, the node stays recorded as connecting, and is never considered again. */
  lemma UnparsableStrands(c: Config, n: NodeID, more: seq<Event>)
    requires c.chanLimit > 0 && c.maxPendingOpens > 0 && !c.parses(n)
    ensures var s := Run(c, Initial(map[]), Misled(n) + more); n in Stranded(s) && n in Skipped(s)
  {
    var round := [Tally(true), Choose({n}), Dispatch];
    assert [] + round == round;
    GatherOne(c, Initial(map[]), [], {}, n);
    RunOne(c, Initial(map[]), round, ParseFailed(n));
    assert n in Stranded(Run(c, Initial(map[]), Misled(n)));
    StaysStranded(c, map[], Misled(n), more, n);
  }
}
