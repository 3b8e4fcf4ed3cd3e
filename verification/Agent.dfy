/** The bookkeeping of autopilot/agent.go as a state machine. The controller takes its critical sections in
    order: it tallies the channels, chooses candidates, dispatches them. The directives it spawned take theirs
    at any moment in between. */
module Agent {
  import opened Bytes

  type uint16 = x: int | 0 <= x < 65536

  /** The limits of the agent's constraints, and which keys secp256k1 can parse. */
  datatype Config = Config(chanLimit: uint16, maxPendingOpens: uint16, parses: NodeID -> bool)

  /** Where the controller stands between two critical sections. */
  datatype Phase = Idle | Tallied(slots: nat) | Chosen(plan: set<NodeID>)

  /** connecting holds one entry per directive that has not reached its pending open, opening one per call of
      OpenChannel that has neither failed nor led to an open channel. The other fields are the agent's own. */
  datatype State = State(
    pendingConns: set<NodeID>, connecting: multiset<NodeID>,
    pendingOpens: set<NodeID>, opening: multiset<NodeID>,
    failedNodes: set<NodeID>, chanState: map<nat, NodeID>, phase: Phase)

  /** byAgent tells a channel that one of the agent's own calls led to from one that others opened. */
  datatype Event =
    | Tally(funded: bool)
    | Choose(plan: set<NodeID>)
    | Dispatch
    | ParseFailed(node: NodeID)
    | ConnectFailed(node: NodeID)
    | Connected(node: NodeID)
    | OpenFailed(node: NodeID)
    | ChanOpened(id: nat, node: NodeID, byAgent: bool)
    | ChanClosed(ids: set<nat>)

  function Total(s: State): nat { |s.chanState| + |s.pendingOpens| }

  /** ConnectedNodes of the channel state. */
  function ConnectedNodes(s: State): set<NodeID> { s.chanState.Values }

  /** mergeNodeMaps over everything to skip. */
  function Skipped(s: State): set<NodeID> {
    s.pendingOpens + s.pendingConns + ConnectedNodes(s) + s.failedNodes
  }

  /** The comparison of the source, on a length cut to sixteen bits. */
  predicate CapReached(c: Config, s: State) { |s.pendingOpens| % 65536 >= c.maxPendingOpens }

  predicate Enabled(c: Config, s: State, e: Event) {
    match e
    case Tally(_) => s.phase.Idle?
    case Choose(plan) => s.phase.Tallied? && |plan| <= s.phase.slots && plan !! Skipped(s)
    case Dispatch => s.phase.Chosen?
    case ParseFailed(n) => n in s.connecting && !c.parses(n)
    case ConnectFailed(n) => n in s.connecting && c.parses(n)
    case Connected(n) => n in s.connecting && c.parses(n)
    case OpenFailed(n) => n in s.opening
    case ChanOpened(_, n, byAgent) => s.phase.Idle? && (byAgent ==> n in s.opening)
    case ChanClosed(_) => s.phase.Idle?
  }

  /** mergeChanState and ChannelBudget. The balance decides whether the budget allows any channel. */
  function Tallying(c: Config, s: State, funded: bool): State {
    if funded && Total(s) < c.chanLimit then s.(phase := Tallied(c.chanLimit - Total(s))) else s
  }

  function Dispatching(c: Config, s: State): State
    requires s.phase.Chosen?
  {
    if CapReached(c, s) then s.(phase := Idle)
    else s.(pendingConns := s.pendingConns + s.phase.plan,
            connecting := s.connecting + multiset(s.phase.plan - s.pendingConns), phase := Idle)
  }

  function Connecting(c: Config, s: State, n: NodeID): State {
    var s' := s.(pendingConns := s.pendingConns - {n}, connecting := s.connecting - multiset{n});
    if CapReached(c, s) then s' else s'.(pendingOpens := s.pendingOpens + {n}, opening := s.opening + multiset{n})
  }

  function Unconnected(s: State, n: NodeID): State {
    s.(pendingConns := s.pendingConns - {n}, connecting := s.connecting - multiset{n},
       failedNodes := s.failedNodes + {n})
  }

  function Unopened(s: State, n: NodeID): State {
    s.(pendingOpens := s.pendingOpens - {n}, opening := s.opening - multiset{n},
       failedNodes := s.failedNodes + {n})
  }

  function Opened(s: State, id: nat, n: NodeID, byAgent: bool): State {
    s.(chanState := s.chanState[id := n], pendingOpens := s.pendingOpens - {n},
       opening := if byAgent then s.opening - multiset{n} else s.opening)
  }

  /** One critical section. An event that cannot happen changes nothing. */
  function Step(c: Config, s: State, e: Event): State {
    if !Enabled(c, s, e) then s else
    match e
    case Tally(funded) => Tallying(c, s, funded)
    case Choose(plan) => s.(phase := Chosen(plan))
    case Dispatch => Dispatching(c, s)
    case ParseFailed(n) => s.(connecting := s.connecting - multiset{n})
    case ConnectFailed(n) => Unconnected(s, n)
    case Connected(n) => Connecting(c, s, n)
    case OpenFailed(n) => Unopened(s, n)
    case ChanOpened(id, n, byAgent) => Opened(s, id, n, byAgent)
    case ChanClosed(ids) => s.(chanState := s.chanState - ids)
  }

  function Run(c: Config, s: State, es: seq<Event>): State
    decreases |es|
  {
    if es == [] then s else Step(c, Run(c, s, es[..|es| - 1]), es[|es| - 1])
  }

  lemma RunOne(c: Config, s: State, es: seq<Event>, e: Event)
    ensures Run(c, s, es + [e]) == Step(c, Run(c, s, es), e)
  {
    assert (es + [e])[..|es|] == es;
  }

  /** The agent as New leaves it, with the channels it is told about. */
  function Initial(chans: map<nat, NodeID>): State {
    State({}, multiset{}, {}, multiset{}, {}, chans, Idle)
  }

  /** At most one directive per node, every one of them recorded. */
  ghost predicate OneDirective(s: State) {
    forall n :: n in s.connecting ==> s.connecting[n] == 1 && n in s.pendingConns
  }

  /** Whatever else happens, nobody but the controller can make a candidate busy. */
  ghost predicate PlanFree(s: State) {
    s.phase.Chosen? ==> s.phase.plan !! s.pendingConns + s.pendingOpens
  }

  ghost predicate Inv(c: Config, s: State) {
    && s.pendingConns !! s.pendingOpens
    && OneDirective(s)
    && |s.pendingOpens| <= c.maxPendingOpens
    && (forall n :: n in s.pendingOpens ==> n in s.opening)
    && PlanFree(s)
  }

  lemma Smaller(s: set<NodeID>, n: NodeID)
    ensures |s - {n}| <= |s|
  {
    if n in s { assert s == (s - {n}) + {n}; } else { assert s - {n} == s; }
  }

  lemma TallyKeeps(c: Config, s: State, funded: bool, s': State)
    requires Inv(c, s) && s.phase.Idle? && s' == Tallying(c, s, funded)
    ensures Inv(c, s')
  {
  }

  lemma DispatchKeeps(c: Config, s: State, s': State)
    requires Inv(c, s) && s.phase.Chosen? && s' == Dispatching(c, s)
    ensures Inv(c, s')
  {
  }

  /** A directive leaves, with its record or without. */
  lemma LeaveKeeps(c: Config, s: State, n: NodeID, s': State)
    requires Inv(c, s) && n in s.connecting
    requires s' == s.(connecting := s.connecting - multiset{n}, pendingConns := s'.pendingConns,
                      failedNodes := s'.failedNodes)
    requires s'.pendingConns == s.pendingConns || s'.pendingConns == s.pendingConns - {n}
    ensures Inv(c, s')
  {
  }

  lemma ConnectedKeeps(c: Config, s: State, n: NodeID, s': State)
    requires Inv(c, s) && n in s.connecting && s' == Connecting(c, s, n)
    ensures Inv(c, s')
  {
    LeaveKeeps(c, s, n, s.(pendingConns := s.pendingConns - {n}, connecting := s.connecting - multiset{n}));
  }

  lemma ConcludeKeeps(c: Config, s: State, n: NodeID, s': State)
    requires Inv(c, s)
    requires s' == s.(pendingOpens := s.pendingOpens - {n}, opening := s'.opening, failedNodes := s'.failedNodes,
                      chanState := s'.chanState)
    requires s'.opening == s.opening || s'.opening == s.opening - multiset{n}
    ensures Inv(c, s')
  {
    Smaller(s.pendingOpens, n);
  }

  lemma StepKeeps(c: Config, s: State, e: Event, s': State)
    requires Inv(c, s) && s' == Step(c, s, e)
    ensures Inv(c, s')
  {
    if Enabled(c, s, e) {
      match e
      case Dispatch => DispatchKeeps(c, s, s');
      case ParseFailed(n) => LeaveKeeps(c, s, n, s');
      case ConnectFailed(n) => LeaveKeeps(c, s, n, s');
      case Connected(n) => ConnectedKeeps(c, s, n, s');
      case OpenFailed(n) => ConcludeKeeps(c, s, n, s');
      case ChanOpened(_, n, _) => ConcludeKeeps(c, s, n, s');
      case _ =>
    }
  }

  /** Over every interleaving: the two pending sets stay disjoint, no node has two directives that have not
      reached a pending open, and the cap on pending opens holds. */
  lemma {:induction false} EveryRun(c: Config, chans: map<nat, NodeID>, es: seq<Event>)
    ensures Inv(c, Run(c, Initial(chans), es))
    decreases |es|
  {
    if es != [] {
      EveryRun(c, chans, es[..|es| - 1]);
      StepKeeps(c, Run(c, Initial(chans), es[..|es| - 1]), es[|es| - 1], Run(c, Initial(chans), es));
    }
  }

  /** Nodes recorded as connecting that no directive works on any more. */
  ghost function Stranded(s: State): set<NodeID> { Without(s.pendingConns, s.connecting) }

  ghost function Without(conns: set<NodeID>, connecting: multiset<NodeID>): set<NodeID> {
    set n | n in conns && n !in connecting
  }

  lemma WithoutMore(conns: set<NodeID>, connecting: multiset<NodeID>, plan: set<NodeID>)
    ensures Without(conns + plan, connecting + multiset(plan - conns)) == Without(conns, connecting)
  {
  }

  lemma WithoutLess(conns: set<NodeID>, connecting: multiset<NodeID>, n: NodeID)
    requires connecting[n] == 1 && n in conns
    ensures Without(conns - {n}, connecting - multiset{n}) == Without(conns, connecting)
    ensures Without(conns, connecting - multiset{n}) == Without(conns, connecting) + {n}
  {
  }

  /** Only a key that does not parse strands a node, and a stranded node stays so. */
  lemma StrandedBy(c: Config, s: State, e: Event, s': State)
    requires OneDirective(s) && s' == Step(c, s, e)
    ensures Stranded(s') == if e.ParseFailed? && Enabled(c, s, e) then Stranded(s) + {e.node} else Stranded(s)
  {
    if !Enabled(c, s, e) {
    } else if e.Dispatch? {
      WithoutMore(s.pendingConns, s.connecting, s.phase.plan);
    } else if e.ParseFailed? || e.ConnectFailed? || e.Connected? {
      WithoutLess(s.pendingConns, s.connecting, e.node);
    } else {
      assert s'.pendingConns == s.pendingConns && s'.connecting == s.connecting;
    }
  }

  /** A stranded node is stranded for good, and skipped whenever candidates are chosen. */
  lemma {:induction false} StaysStranded(c: Config, chans: map<nat, NodeID>, es: seq<Event>, more: seq<Event>, n: NodeID)
    requires n in Stranded(Run(c, Initial(chans), es))
    ensures var s := Run(c, Initial(chans), es + more); n in Stranded(s) && n in Skipped(s)
    decreases |more|
  {
    if more == [] {
      assert es + more == es;
    } else {
      var init, e := more[..|more| - 1], more[|more| - 1];
      StaysStranded(c, chans, es, init, n);
      EveryRun(c, chans, es + init);
      RunOne(c, Initial(chans), es + init, e);
      assert es + more == es + init + [e];
      StrandedBy(c, Run(c, Initial(chans), es + init), e, Run(c, Initial(chans), es + more));
    }
  }
}
