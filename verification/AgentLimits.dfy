/** What the agent's bookkeeping promises beyond its own sets: no second channel to a node, no second try at a
    failed one, and the limit on channels, which holds under a condition the code does not check. */
module AgentLimits {
  import opened Bytes
  import opened Agent

  ghost function Plan(s: State): set<NodeID> { if s.phase.Chosen? then s.phase.plan else {} }

  /** The nodes the agent is working on, or about to. */
  ghost function Busy(s: State): set<NodeID> { s.pendingConns + s.pendingOpens + Plan(s) }

  /** Every call of OpenChannel still under way is recorded, and the agent neither works on a node it has a
      channel with nor on one that failed it. */
  ghost predicate Clean(s: State) {
    && s.opening == multiset(s.pendingOpens)
    && Busy(s) !! ConnectedNodes(s)
    && Busy(s) !! s.failedNodes
  }

  /** Nobody else opens a channel to a node the agent is working on. */
  ghost predicate Undisturbed(c: Config, s: State, e: Event) {
    e.ChanOpened? && !e.byAgent && Enabled(c, s, e) ==> e.node !in s.pendingConns && e.node !in s.opening
  }

  lemma OpenedNodes(chans: map<nat, NodeID>, id: nat, n: NodeID)
    ensures n in chans[id := n].Values && chans[id := n].Values <= chans.Values + {n}
  {
    assert chans[id := n][id] == n;
  }

  lemma PutIn(a: set<NodeID>, n: NodeID)
    requires n !in a
    ensures multiset(a + {n}) == multiset(a) + multiset{n}
  {
  }

  lemma TakenOut(a: set<NodeID>, n: NodeID)
    requires n in a
    ensures multiset(a - {n}) == multiset(a) - multiset{n}
  {
  }

  /** The agent's own channel opened. */
  lemma OwnClean(s: State, id: nat, n: NodeID, s': State)
    requires s.pendingConns !! s.pendingOpens && Clean(s) && s.phase.Idle? && n in s.opening
    requires s' == s.(chanState := s.chanState[id := n], pendingOpens := s.pendingOpens - {n},
                      opening := s.opening - multiset{n})
    ensures Clean(s')
  {
    OpenedNodes(s.chanState, id, n);
    TakenOut(s.pendingOpens, n);
    IdleBusy(s);
    IdleBusy(s');
    StillApart(Busy(s), ConnectedNodes(s), Busy(s'), ConnectedNodes(s'), n);
  }

  lemma IdleBusy(s: State)
    requires s.phase.Idle?
    ensures Busy(s) == s.pendingConns + s.pendingOpens
  {
  }

  lemma StillApart(busy: set<NodeID>, nodes: set<NodeID>, busy': set<NodeID>, nodes': set<NodeID>, n: NodeID)
    requires busy !! nodes && busy' <= busy && n !in busy' && nodes' <= nodes + {n}
    ensures busy' !! nodes'
  {
  }

  /** Somebody else's channel opened. */
  lemma ForeignClean(s: State, id: nat, n: NodeID, s': State)
    requires Clean(s) && s.phase.Idle?
    requires s' == s.(chanState := s.chanState[id := n], pendingOpens := s.pendingOpens - {n})
    ensures Clean(s') <==> n !in s.pendingConns && n !in s.opening
  {
    OpenedNodes(s.chanState, id, n);
    if n in s.opening {
      assert n in s'.opening && n !in multiset(s'.pendingOpens);
    } else {
      assert s'.pendingOpens == s.pendingOpens;
      assert Busy(s') == Busy(s);
    }
  }

  lemma ClosedClean(s: State, ids: set<nat>, s': State)
    requires Clean(s) && s' == s.(chanState := s.chanState - ids)
    ensures Clean(s')
  {
    assert s'.chanState.Values <= s.chanState.Values;
  }

  lemma ChooseClean(s: State, plan: set<NodeID>, s': State)
    requires Clean(s) && s.phase.Tallied? && plan !! Skipped(s) && s' == s.(phase := Chosen(plan))
    ensures Clean(s')
  {
    assert Busy(s') == Busy(s) + plan;
  }

  lemma DispatchClean(c: Config, s: State, s': State)
    requires Clean(s) && s.phase.Chosen? && s' == Dispatching(c, s)
    ensures Clean(s')
  {
    assert Busy(s') <= Busy(s);
  }

  lemma ConnectedClean(c: Config, s: State, n: NodeID, s': State)
    requires s.pendingConns !! s.pendingOpens && n in s.pendingConns && Clean(s) && s' == Connecting(c, s, n)
    ensures Clean(s')
  {
    PutIn(s.pendingOpens, n);
    assert Busy(s') <= Busy(s);
  }

  lemma ConnectFailedClean(s: State, n: NodeID, s': State)
    requires s.pendingConns !! s.pendingOpens && PlanFree(s) && Clean(s) && n in s.pendingConns
    requires s' == Unconnected(s, n)
    ensures Clean(s')
  {
    assert Busy(s') == Busy(s) - {n};
  }

  lemma OpenFailedClean(s: State, n: NodeID, s': State)
    requires s.pendingConns !! s.pendingOpens && PlanFree(s) && Clean(s) && n in s.pendingOpens
    requires s' == Unopened(s, n)
    ensures Clean(s')
  {
    TakenOut(s.pendingOpens, n);
    assert Busy(s') == Busy(s) - {n};
  }

  lemma DirectiveClean(c: Config, s: State, e: Event, s': State)
    requires Inv(c, s) && Clean(s) && Enabled(c, s, e) && s' == Step(c, s, e)
    requires e.Connected? || e.ConnectFailed? || e.OpenFailed?
    ensures Clean(s')
  {
    if e.OpenFailed? {
      assert e.node in s.pendingOpens;
      OpenFailedClean(s, e.node, s');
    } else if e.ConnectFailed? {
      ConnectFailedClean(s, e.node, s');
    } else {
      ConnectedClean(c, s, e.node, s');
    }
  }

  lemma OpenedClean(c: Config, s: State, e: Event, s': State)
    requires Inv(c, s) && Clean(s) && e.ChanOpened? && Enabled(c, s, e) && s' == Step(c, s, e)
    ensures Clean(s') <==> Undisturbed(c, s, e)
  {
    if e.byAgent {
      OwnClean(s, e.id, e.node, s');
    } else {
      ForeignClean(s, e.id, e.node, s');
    }
  }

  /** One step leaves the agent clean exactly when it does not disturb it. */
  lemma StepClean(c: Config, s: State, e: Event, s': State)
    requires Inv(c, s) && Clean(s) && s' == Step(c, s, e)
    ensures Clean(s') <==> Undisturbed(c, s, e)
  {
    if !Enabled(c, s, e) {
      assert s' == s;
    } else if e.Choose? {
      ChooseClean(s, e.plan, s');
    } else if e.Dispatch? {
      DispatchClean(c, s, s');
    } else if e.Connected? || e.ConnectFailed? || e.OpenFailed? {
      DirectiveClean(c, s, e, s');
    } else if e.ChanOpened? {
      OpenedClean(c, s, e, s');
    } else if e.ChanClosed? {
      ClosedClean(s, e.ids, s');
    } else {
      SameClean(s, s');
    }
  }

  lemma SameClean(s: State, s': State)
    requires Clean(s) && s' == s.(phase := s'.phase, connecting := s'.connecting) && Plan(s') == Plan(s)
    ensures Clean(s')
  {
    assert Busy(s') == Busy(s);
  }

  ghost predicate UndisturbedRun(c: Config, s: State, es: seq<Event>)
    decreases |es|
  {
    es == [] || (UndisturbedRun(c, s, es[..|es| - 1]) && Undisturbed(c, Run(c, s, es[..|es| - 1]), es[|es| - 1]))
  }

  /** mergeNodeMaps keeps its promise over every undisturbed run: no duplicate channel, no retried failure. */
  lemma {:induction false} NoDuplicates(c: Config, chans: map<nat, NodeID>, es: seq<Event>)
    requires UndisturbedRun(c, Initial(chans), es)
    ensures Clean(Run(c, Initial(chans), es))
    decreases |es|
  {
    if es != [] {
      var before := es[..|es| - 1];
      NoDuplicates(c, chans, before);
      EveryRun(c, chans, before);
      StepClean(c, Run(c, Initial(chans), before), es[|es| - 1], Run(c, Initial(chans), es));
    }
  }

  /** Only the agent opens channels. */
  ghost predicate AgentOnly(e: Event) { e.ChanOpened? ==> e.byAgent }

  /** What the controller has set aside but not yet dispatched. */
  ghost function Reserved(s: State): nat {
    match s.phase
    case Idle => 0
    case Tallied(k) => k
    case Chosen(plan) => |plan|
  }

  /** Everything that could still become a channel fits below the limit. */
  ghost predicate Room(c: Config, s: State) {
    && s.opening == multiset(s.pendingOpens)
    && Total(s) + |s.connecting| + Reserved(s) <= c.chanLimit
  }

  /** The controller hands out slots only when no directive is on its way to a pending open. */
  ghost predicate Quiet(c: Config, s: State, e: Event) {
    e.Tally? && Enabled(c, s, e) && e.funded && Total(s) < c.chanLimit ==> s.connecting == multiset{}
  }

  lemma OpenedRoom(c: Config, s: State, e: Event, s': State)
    requires Room(c, s) && e.ChanOpened? && e.byAgent && Enabled(c, s, e) && s' == Step(c, s, e)
    ensures Room(c, s')
  {
    var n := e.node;
    assert s.pendingOpens == (s.pendingOpens - {n}) + {n};
    OpenedCount(s.chanState, e.id, n);
  }

  lemma OpenedCount(chans: map<nat, NodeID>, id: nat, n: NodeID)
    ensures |chans[id := n]| <= |chans| + 1
  {
    var after := chans[id := n];
    if id in chans {
      assert after.Keys == chans.Keys;
    } else {
      assert after.Keys == chans.Keys + {id};
    }
    assert |after| == |after.Keys| && |chans| == |chans.Keys|;
  }

  lemma ClosedCount(chans: map<nat, NodeID>, ids: set<nat>)
    ensures |chans - ids| <= |chans|
  {
    assert (chans - ids).Keys == chans.Keys - ids;
    FewerKeys(chans.Keys, ids);
    assert |chans - ids| == |(chans - ids).Keys| && |chans| == |chans.Keys|;
  }

  lemma FewerKeys(keys: set<nat>, ids: set<nat>)
    ensures |keys - ids| <= |keys|
  {
    assert keys == (keys - ids) + (keys * ids);
  }

  lemma DispatchRoom(c: Config, s: State, s': State)
    requires Room(c, s) && s.phase.Chosen? && s' == Dispatching(c, s)
    ensures Room(c, s')
  {
    var news := s.phase.plan - s.pendingConns;
    assert s.phase.plan == news + (s.phase.plan * s.pendingConns);
  }

  lemma ConnectedRoom(c: Config, s: State, n: NodeID, s': State)
    requires Inv(c, s) && Room(c, s) && n in s.connecting && s' == Connecting(c, s, n)
    ensures Room(c, s')
  {
    assert s.connecting == s'.connecting + multiset{n};
  }

  lemma LeaveRoom(c: Config, s: State, n: NodeID, s': State)
    requires Room(c, s) && n in s.connecting
    requires s' == s.(connecting := s.connecting - multiset{n}, pendingConns := s'.pendingConns,
                      failedNodes := s'.failedNodes)
    ensures Room(c, s')
  {
    assert s.connecting == s'.connecting + multiset{n};
  }

  lemma OpenFailedRoom(c: Config, s: State, n: NodeID, s': State)
    requires Room(c, s) && n in s.opening
    requires s' == Unopened(s, n)
    ensures Room(c, s')
  {
    TakenOut(s.pendingOpens, n);
    Smaller(s.pendingOpens, n);
  }

  /** One step of an agent left to itself keeps room exactly when it is quiet. */
  lemma StepRoom(c: Config, s: State, e: Event, s': State)
    requires Inv(c, s) && Room(c, s) && AgentOnly(e) && s' == Step(c, s, e)
    ensures Room(c, s') <==> Quiet(c, s, e)
  {
    if Enabled(c, s, e) {
      match e
      case Dispatch => DispatchRoom(c, s, s');
      case ParseFailed(n) => LeaveRoom(c, s, n, s');
      case ConnectFailed(n) => LeaveRoom(c, s, n, s');
      case OpenFailed(n) => OpenFailedRoom(c, s, n, s');
      case Connected(n) => ConnectedRoom(c, s, n, s');
      case ChanOpened(_, _, _) => OpenedRoom(c, s, e, s');
      case ChanClosed(ids) => ClosedCount(s.chanState, ids);
      case _ =>
    }
  }

  ghost predicate QuietRun(c: Config, s: State, es: seq<Event>)
    decreases |es|
  {
    es == [] || (QuietRun(c, s, es[..|es| - 1]) && Quiet(c, Run(c, s, es[..|es| - 1]), es[|es| - 1]))
  }

  /** The limit on channels holds over every quiet run. */
  lemma {:induction false} QuietRunsKeepLimit(c: Config, chans: map<nat, NodeID>, es: seq<Event>)
    requires |chans| <= c.chanLimit && QuietRun(c, Initial(chans), es)
    requires forall i :: 0 <= i < |es| ==> AgentOnly(es[i])
    ensures Room(c, Run(c, Initial(chans), es)) && Total(Run(c, Initial(chans), es)) <= c.chanLimit
    decreases |es|
  {
    if es != [] {
      var before := es[..|es| - 1];
      QuietRunsKeepLimit(c, chans, before);
      EveryRun(c, chans, before);
      StepRoom(c, Run(c, Initial(chans), before), es[|es| - 1], Run(c, Initial(chans), es));
    }
  }
}
