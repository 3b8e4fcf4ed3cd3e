/** What the agent's records say about its past, over every run: which nodes have failed it, and which channels
    there are. */
module AgentRecords {
  import opened Bytes
  import opened Agent
  import AgentLimits

  /** The k-th event can happen when its turn comes. */
  ghost predicate Happens(c: Config, s: State, es: seq<Event>, k: nat) {
    k < |es| && Enabled(c, Run(c, s, es[..k]), es[k])
  }

  lemma SamePast(c: Config, s: State, es: seq<Event>, e: Event, k: nat)
    ensures k < |es| ==> (Happens(c, s, es + [e], k) <==> Happens(c, s, es, k))
    ensures Happens(c, s, es + [e], |es|) <==> Enabled(c, Run(c, s, es), e)
  {
    assert (es + [e])[..|es|] == es;
    if k < |es| { assert (es + [e])[..k] == es[..k]; }
  }

  // ----- failed nodes

  predicate FailureOf(e: Event, n: NodeID) {
    e == ConnectFailed(n) || e == OpenFailed(n)
  }

  /** The node could not be connected to, or refused a channel, at some point. */
  ghost predicate HasFailed(c: Config, s: State, es: seq<Event>, n: NodeID) {
    exists k: nat :: Happens(c, s, es, k) && FailureOf(es[k], n)
  }

  lemma HasFailedNext(c: Config, s: State, es: seq<Event>, e: Event, n: NodeID)
    ensures HasFailed(c, s, es + [e], n)
       <==> HasFailed(c, s, es, n) || (Enabled(c, Run(c, s, es), e) && FailureOf(e, n))
  {
    if HasFailed(c, s, es, n) {
      var k: nat :| Happens(c, s, es, k) && FailureOf(es[k], n);
      SamePast(c, s, es, e, k);
      assert Happens(c, s, es + [e], k) && FailureOf((es + [e])[k], n);
    }
    SamePast(c, s, es, e, |es|);
    if Enabled(c, Run(c, s, es), e) && FailureOf(e, n) {
      assert Happens(c, s, es + [e], |es|) && FailureOf((es + [e])[|es|], n);
    }
    if HasFailed(c, s, es + [e], n) {
      var k: nat :| Happens(c, s, es + [e], k) && FailureOf((es + [e])[k], n);
      SamePast(c, s, es, e, k);
      if k < |es| { assert Happens(c, s, es, k) && FailureOf(es[k], n); }
    }
  }

  /** What the records say is what has happened. */
  ghost predicate FailuresTrue(c: Config, chans: map<nat, NodeID>, es: seq<Event>, n: NodeID) {
    n in Run(c, Initial(chans), es).failedNodes <==> HasFailed(c, Initial(chans), es, n)
  }

  /** The failed nodes are exactly those that failed a directive at some point of the run. */
  lemma {:induction false} FailedIff(c: Config, chans: map<nat, NodeID>, es: seq<Event>, n: NodeID)
    ensures FailuresTrue(c, chans, es, n)
    decreases |es|
  {
    if es == [] {
      FailuresNone(c, chans, n);
    } else {
      var before, e := es[..|es| - 1], es[|es| - 1];
      assert es == before + [e];
      FailedIff(c, chans, before, n);
      FailuresNext(c, chans, before, e, n);
    }
  }

  lemma FailuresNone(c: Config, chans: map<nat, NodeID>, n: NodeID)
    ensures FailuresTrue(c, chans, [], n)
  {
  }

  lemma FailuresNext(c: Config, chans: map<nat, NodeID>, es: seq<Event>, e: Event, n: NodeID)
    requires FailuresTrue(c, chans, es, n)
    ensures FailuresTrue(c, chans, es + [e], n)
  {
    RunOne(c, Initial(chans), es, e);
    HasFailedNext(c, Initial(chans), es, e, n);
    FailedStep(c, Run(c, Initial(chans), es), e, Run(c, Initial(chans), es + [e]));
  }

  lemma FailedStep(c: Config, s: State, e: Event, s': State)
    requires s' == Step(c, s, e)
    ensures Enabled(c, s, e) && (e.ConnectFailed? || e.OpenFailed?) ==> s'.failedNodes == s.failedNodes + {e.node}
    ensures !(Enabled(c, s, e) && (e.ConnectFailed? || e.OpenFailed?)) ==> s'.failedNodes == s.failedNodes
  {
  }

  lemma HasFailedStill(c: Config, s: State, es: seq<Event>, failure: Event, more: seq<Event>, n: NodeID)
    requires Enabled(c, Run(c, s, es), failure) && FailureOf(failure, n)
    ensures HasFailed(c, s, es + [failure] + more, n)
  {
    var all := es + [failure] + more;
    assert all[..|es|] == es && all[|es|] == failure;
    assert Happens(c, s, all, |es|) && FailureOf(all[|es|], n);
  }

  /** After a failed connection or a failed open, whatever happens: the node is recorded as failed, it is skipped,
      and no plan has it any more. */
  lemma NeverAgain(c: Config, chans: map<nat, NodeID>, es: seq<Event>, failure: Event, more: seq<Event>, n: NodeID)
    requires Enabled(c, Run(c, Initial(chans), es), failure) && FailureOf(failure, n)
    ensures var s := Run(c, Initial(chans), es + [failure] + more);
      && n in s.failedNodes && n in Skipped(s)
      && forall plan :: Enabled(c, s, Choose(plan)) ==> n !in plan
  {
    HasFailedStill(c, Initial(chans), es, failure, more, n);
    FailedIff(c, chans, es + [failure] + more, n);
  }

  // ----- channels

  predicate Concerns(e: Event, id: nat) {
    (e.ChanOpened? && e.id == id) || (e.ChanClosed? && id in e.ids)
  }

  /** From the k-th event on, the channel was neither opened nor closed. */
  ghost predicate Untouched(c: Config, s: State, es: seq<Event>, id: nat, k: nat) {
    forall j: nat :: k <= j && Happens(c, s, es, j) ==> !Concerns(es[j], id)
  }

  /** The k-th event opened the channel, and nothing has happened to it since. */
  ghost predicate OpenedAt(c: Config, s: State, es: seq<Event>, id: nat, n: NodeID, k: nat) {
    && Happens(c, s, es, k) && es[k].ChanOpened? && es[k].id == id && es[k].node == n
    && Untouched(c, s, es, id, k + 1)
  }

  ghost predicate Channel(s: State, id: nat, n: NodeID) {
    id in s.chanState && s.chanState[id] == n
  }

  /** The channel was there from the beginning or has been opened, and has not been closed since. */
  ghost predicate LastOpened(c: Config, s: State, es: seq<Event>, id: nat, n: NodeID) {
    || (Channel(s, id, n) && Untouched(c, s, es, id, 0))
    || (exists k: nat :: OpenedAt(c, s, es, id, n, k))
  }

  lemma UntouchedNext(c: Config, s: State, es: seq<Event>, e: Event, id: nat, k: nat)
    requires k <= |es|
    ensures Untouched(c, s, es + [e], id, k)
       <==> Untouched(c, s, es, id, k) && !(Enabled(c, Run(c, s, es), e) && Concerns(e, id))
  {
    SamePast(c, s, es, e, |es|);
    forall j: nat ensures j < |es| ==> (Happens(c, s, es + [e], j) <==> Happens(c, s, es, j)) {
      SamePast(c, s, es, e, j);
    }
    if Untouched(c, s, es + [e], id, k) {
      assert Happens(c, s, es + [e], |es|) ==> !Concerns((es + [e])[|es|], id);
      forall j: nat | k <= j && Happens(c, s, es, j) ensures !Concerns(es[j], id) {
        assert Happens(c, s, es + [e], j);
        assert (es + [e])[j] == es[j];
      }
    }
  }

  lemma OpenedNext(c: Config, s: State, es: seq<Event>, e: Event, id: nat, n: NodeID, k: nat)
    requires k < |es|
    ensures OpenedAt(c, s, es + [e], id, n, k)
       <==> OpenedAt(c, s, es, id, n, k) && !(Enabled(c, Run(c, s, es), e) && Concerns(e, id))
  {
    SamePast(c, s, es, e, k);
    UntouchedNext(c, s, es, e, id, k + 1);
  }

  lemma OpenedNow(c: Config, s: State, es: seq<Event>, e: Event, id: nat, n: NodeID)
    ensures OpenedAt(c, s, es + [e], id, n, |es|)
       <==> Enabled(c, Run(c, s, es), e) && e.ChanOpened? && e.id == id && e.node == n
  {
    SamePast(c, s, es, e, |es|);
  }

  lemma LastOpenedNext(c: Config, s: State, es: seq<Event>, e: Event, id: nat, n: NodeID)
    ensures LastOpened(c, s, es + [e], id, n)
       <==> if Enabled(c, Run(c, s, es), e) && Concerns(e, id) then e.ChanOpened? && e.node == n
            else LastOpened(c, s, es, id, n)
  {
    UntouchedNext(c, s, es, e, id, 0);
    OpenedNow(c, s, es, e, id, n);
    forall k: nat ensures k < |es| ==>
      (OpenedAt(c, s, es + [e], id, n, k)
       <==> OpenedAt(c, s, es, id, n, k) && !(Enabled(c, Run(c, s, es), e) && Concerns(e, id)))
    {
      if k < |es| { OpenedNext(c, s, es, e, id, n, k); }
    }
    if exists k: nat :: OpenedAt(c, s, es, id, n, k) {
      var k: nat :| OpenedAt(c, s, es, id, n, k);
      assert OpenedAt(c, s, es + [e], id, n, k) <==> !(Enabled(c, Run(c, s, es), e) && Concerns(e, id));
    }
  }

  lemma ChannelStep(c: Config, s: State, e: Event, s': State, id: nat, n: NodeID)
    requires s' == Step(c, s, e)
    ensures Channel(s', id, n)
       <==> if Enabled(c, s, e) && Concerns(e, id) then e.ChanOpened? && e.node == n else Channel(s, id, n)
  {
    if !Enabled(c, s, e) {
    } else if e.ChanOpened? {
    } else if e.ChanClosed? {
    } else {
      assert s'.chanState == s.chanState;
    }
  }

  ghost predicate ChannelsTrue(c: Config, chans: map<nat, NodeID>, es: seq<Event>, id: nat, n: NodeID) {
    Channel(Run(c, Initial(chans), es), id, n) <==> LastOpened(c, Initial(chans), es, id, n)
  }

  /** The agent's channels are exactly those that it started with or was told of, and was not told the end of. */
  lemma {:induction false} ChannelIff(c: Config, chans: map<nat, NodeID>, es: seq<Event>, id: nat, n: NodeID)
    ensures ChannelsTrue(c, chans, es, id, n)
    decreases |es|
  {
    if es != [] {
      ChannelIff(c, chans, es[..|es| - 1], id, n);
      ChannelsNext(c, chans, es[..|es| - 1], es[|es| - 1], id, n);
      assert es == es[..|es| - 1] + [es[|es| - 1]];
    }
  }

  lemma ChannelsNext(c: Config, chans: map<nat, NodeID>, es: seq<Event>, e: Event, id: nat, n: NodeID)
    requires ChannelsTrue(c, chans, es, id, n)
    ensures ChannelsTrue(c, chans, es + [e], id, n)
  {
    RunOne(c, Initial(chans), es, e);
    LastOpenedNext(c, Initial(chans), es, e, id, n);
    ChannelStep(c, Run(c, Initial(chans), es), e, Run(c, Initial(chans), es + [e]), id, n);
  }

  /** Over every undisturbed run the agent works neither on a node that has failed it at some point nor on one that
      it was told of a channel with and not of its end. */
  lemma NothingTwice(c: Config, chans: map<nat, NodeID>, es: seq<Event>, n: NodeID)
    requires AgentLimits.UndisturbedRun(c, Initial(chans), es)
    requires HasFailed(c, Initial(chans), es, n) || exists id :: LastOpened(c, Initial(chans), es, id, n)
    ensures n !in AgentLimits.Busy(Run(c, Initial(chans), es))
  {
    AgentLimits.NoDuplicates(c, chans, es);
    FailedIff(c, chans, es, n);
    if id :| LastOpened(c, Initial(chans), es, id, n) { ChannelIff(c, chans, es, id, n); }
  }
}
