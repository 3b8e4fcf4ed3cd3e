/** The agent as an object whose maps its critical sections update in place, and what they keep: the two pending
    sets are disjoint, no node has two directives, and the cap on pending opens holds. */
module AgentObject {
  import opened Bytes
  import opened Agent

  /** The ghost fields count the directives and calls under way and say where the controller stands. */
  class AutopilotAgent {
    const cfg: Config
    var pendingConns: set<NodeID>
    var pendingOpens: set<NodeID>
    var failedNodes: set<NodeID>
    var chanState: map<nat, NodeID>
    ghost var connecting: multiset<NodeID>
    ghost var opening: multiset<NodeID>
    ghost var phase: Phase

    ghost function View(): State
      reads this
    {
      State(pendingConns, connecting, pendingOpens, opening, failedNodes, chanState, phase)
    }

    constructor (cfg: Config, chans: map<nat, NodeID>)
      ensures this.cfg == cfg && View() == Initial(chans) && Inv(cfg, View())
    {
      this.cfg := cfg;
      pendingConns, pendingOpens, failedNodes, chanState := {}, {}, {}, chans;
      connecting, opening, phase := multiset{}, multiset{}, Idle;
    }

    /** mergeChanState and the slots part of ChannelBudget. */
    method TallyChannels(funded: bool) returns (slots: nat)
      requires Inv(cfg, View()) && phase.Idle?
      modifies this`phase
      ensures Enabled(cfg, old(View()), Tally(funded)) && View() == Tallying(cfg, old(View()), funded)
      ensures slots > 0 <==> phase.Tallied?
      ensures slots > 0 ==> slots == phase.slots && Total(View()) + slots == cfg.chanLimit
      ensures Inv(cfg, View())
    {
      ghost var before := View();
      var total := |chanState| + |pendingOpens|;
      slots := 0;
      if funded && total < cfg.chanLimit {
        slots := cfg.chanLimit - total;
        phase := Tallied(slots);
      }
      TallyKeeps(cfg, before, funded, View());
    }

    /** The loop over the candidates, in any order. */
    method LaunchAll(plan: set<NodeID>) returns (launched: set<NodeID>)
      modifies this`pendingConns
      ensures pendingConns == old(pendingConns) + plan
      ensures launched == plan - old(pendingConns)
    {
      launched := {};
      var todo := plan;
      while todo != {}
        invariant todo <= plan
        invariant pendingConns == old(pendingConns) + (plan - todo)
        invariant launched == plan - todo - old(pendingConns)
      {
        var node :| node in todo;
        todo := todo - {node};
        if node !in pendingConns {
          pendingConns := pendingConns + {node};
          launched := launched + {node};
        }
      }
    }

    /** The end of openChans: unless the cap is reached, launch every candidate that is not connecting yet. */
    method DispatchCandidates(plan: set<NodeID>) returns (launched: set<NodeID>)
      requires Inv(cfg, View()) && phase == Chosen(plan)
      modifies this`pendingConns, this`connecting, this`phase
      ensures Enabled(cfg, old(View()), Dispatch) && View() == Dispatching(cfg, old(View()))
      ensures launched == if CapReached(cfg, old(View())) then {} else plan
      ensures Inv(cfg, View())
    {
      ghost var before := View();
      phase := Idle;
      launched := {};
      if |pendingOpens| % 65536 < cfg.maxPendingOpens {
        launched := LaunchAll(plan);
        assert launched == plan;
        connecting := connecting + multiset(launched);
      }
      DispatchKeeps(cfg, before, View());
    }

    /** executeDirective, when the connection fails. */
    method FailConnection(node: NodeID)
      requires Inv(cfg, View()) && node in connecting && cfg.parses(node)
      modifies this`pendingConns, this`connecting, this`failedNodes
      ensures Enabled(cfg, old(View()), ConnectFailed(node)) && View() == Unconnected(old(View()), node)
      ensures node in failedNodes && node !in pendingConns && node !in connecting
      ensures Inv(cfg, View())
    {
      ghost var before := View();
      pendingConns := pendingConns - {node};
      failedNodes := failedNodes + {node};
      connecting := connecting - multiset{node};
      LeaveKeeps(cfg, before, node, View());
    }

    /** executeDirective, when the connection is made: either a slot is free or the node is given up for now. */
    method MakeConnection(node: NodeID) returns (open: bool)
      requires Inv(cfg, View()) && node in connecting && cfg.parses(node)
      modifies this`pendingConns, this`connecting, this`pendingOpens, this`opening
      ensures Enabled(cfg, old(View()), Connected(node)) && View() == Connecting(cfg, old(View()), node)
      ensures open <==> !CapReached(cfg, old(View()))
      ensures Inv(cfg, View())
    {
      ghost var before := View();
      open := |pendingOpens| % 65536 < cfg.maxPendingOpens;
      pendingConns := pendingConns - {node};
      connecting := connecting - multiset{node};
      if open {
        pendingOpens := pendingOpens + {node};
        opening := opening + multiset{node};
      }
      ConnectedKeeps(cfg, before, node, View());
    }

    /** executeDirective, when OpenChannel fails. */
    method FailOpen(node: NodeID)
      requires Inv(cfg, View()) && node in opening
      modifies this`pendingOpens, this`opening, this`failedNodes
      ensures Enabled(cfg, old(View()), OpenFailed(node)) && View() == Unopened(old(View()), node)
      ensures node in failedNodes && node !in pendingOpens
      ensures Inv(cfg, View())
    {
      ghost var before := View();
      RecordFailedOpen(node);
      ConcludeKeeps(cfg, before, node, View());
    }

    method RecordFailedOpen(node: NodeID)
      modifies this`pendingOpens, this`opening, this`failedNodes
      ensures View() == Unopened(old(View()), node)
    {
      pendingOpens := pendingOpens - {node};
      failedNodes := failedNodes + {node};
      opening := opening - multiset{node};
    }

    /** The controller on a chanOpenUpdate. */
    method OpenChan(id: nat, node: NodeID, ghost byAgent: bool)
      requires Inv(cfg, View()) && phase.Idle? && (byAgent ==> node in opening)
      modifies this`chanState, this`pendingOpens, this`opening
      ensures Enabled(cfg, old(View()), ChanOpened(id, node, byAgent)) && View() == Opened(old(View()), id, node, byAgent)
      ensures id in chanState && chanState[id] == node && node !in pendingOpens
      ensures Inv(cfg, View())
    {
      ghost var before := View();
      chanState := chanState[id := node];
      pendingOpens := pendingOpens - {node};
      if byAgent {
        opening := opening - multiset{node};
      }
      ConcludeKeeps(cfg, before, node, View());
    }

    /** The controller on a chanCloseUpdate. */
    method CloseChans(closed: seq<nat>)
      requires Inv(cfg, View()) && phase.Idle?
      modifies this`chanState
      ensures Enabled(cfg, old(View()), ChanClosed(set id | id in closed))
      ensures View() == Step(cfg, old(View()), ChanClosed(set id | id in closed))
      ensures forall id :: id in chanState <==> id in old(chanState) && id !in closed
      ensures forall id :: id in chanState ==> chanState[id] == old(chanState)[id]
      ensures Inv(cfg, View())
    {
      for i := 0 to |closed|
        invariant chanState == old(chanState) - (set id | id in closed[..i])
      {
        chanState := chanState - {closed[i]};
      }
      assert closed[..|closed|] == closed;
    }
  }
}
