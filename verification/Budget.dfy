/** The channel budget of autopilot/agent_constraints.go and the directives that openChans builds from it. */
module Budget {
  import opened Bytes
  import opened Choice

  /** agentConstraints. Amounts are in atoms. */
  datatype Constraints = Constraints(minChanSize: int, maxChanSize: int, chanLimit: nat, allocation: real)

  ghost function Sum(amounts: seq<int>): int {
    if amounts == [] then 0 else Sum(amounts[..|amounts| - 1]) + amounts[|amounts| - 1]
  }

  lemma SumAppend(amounts: seq<int>, a: int)
    ensures Sum(amounts + [a]) == Sum(amounts) + a
  {
    assert (amounts + [a])[..|amounts|] == amounts;
  }

  lemma {:induction false} SumNonNegative(amounts: seq<int>)
    requires forall i :: 0 <= i < |amounts| ==> amounts[i] >= 0
    ensures Sum(amounts) >= 0
  {
    if amounts != [] { SumNonNegative(amounts[..|amounts| - 1]); }
  }

  /** ChannelBudget, for the balances of the open and pending channels and the wallet's funds. Without any
      funds the fraction is not a number, and no comparison with it succeeds. The budget never lets the
      channels hold more than their allocation, or number more than the limit. */
  method ChannelBudget(h: Constraints, channels: seq<int>, funds: int) returns (available: int, num: nat)
    requires funds >= 0 && forall i :: 0 <= i < |channels| ==> channels[i] >= 0
    ensures available >= 0
    ensures |channels| + num <= h.chanLimit || num == 0
    ensures num > 0 ==> |channels| + num == h.chanLimit
    ensures num == 0 ==> available == 0
    ensures num > 0 ==> (Sum(channels) + available) as real <= h.allocation * (funds + Sum(channels)) as real
    ensures num > 0 ==> h.allocation * (funds + Sum(channels)) as real < (Sum(channels) + available + 1) as real
    ensures num > 0 <==> |channels| < h.chanLimit && funds + Sum(channels) > 0
                         && Sum(channels) as real / (funds + Sum(channels)) as real < h.allocation
  {
    SumNonNegative(channels);
    if |channels| >= h.chanLimit {
      return 0, 0;
    }
    num := h.chanLimit - |channels|;
    var totalChanAllocation := 0;
    for i := 0 to |channels|
      invariant totalChanAllocation == Sum(channels[..i])
    {
      assert channels[..i + 1][..i] == channels[..i];
      totalChanAllocation := totalChanAllocation + channels[i];
    }
    assert channels[..|channels|] == channels;
    var totalFunds := funds + totalChanAllocation;
    if totalFunds == 0 || !(totalChanAllocation as real / totalFunds as real < h.allocation) {
      return 0, 0;
    }
    BelowTarget(totalChanAllocation, totalFunds, h.allocation);
    var target := (totalFunds as real * h.allocation).Floor;
    available := target - totalChanAllocation;
  }

  lemma BelowTarget(used: int, total: int, allocation: real)
    requires total > 0 && used as real / total as real < allocation
    ensures used as real <= total as real * allocation
    ensures (total as real * allocation).Floor >= used
  {
    var t := total as real;
    assert (used as real / t) * t < allocation * t;
  }

  /** One attachment directive. */
  datatype Directive = Directive(node: NodeID, amount: int)

  ghost function Amounts(ds: seq<Directive>): seq<int> {
    seq(|ds|, i requires 0 <= i < |ds| => ds[i].amount)
  }

  /** The directives stay within the funds and the size limits, one per node. */
  ghost predicate WithinFunds(h: Constraints, ds: seq<Directive>, funds: int) {
    && Sum(Amounts(ds)) <= funds
    && (forall i :: 0 <= i < |ds| ==> h.minChanSize <= ds[i].amount <= h.maxChanSize)
    && (forall i, j :: 0 <= i < j < |ds| ==> ds[i].node != ds[j].node)
  }

  ghost predicate AllButLastFull(h: Constraints, ds: seq<Directive>) {
    forall i :: 0 <= i < |ds| - 1 ==> ds[i].amount == h.maxChanSize
  }

  /** The loop of openChans over the chosen nodes, in the arbitrary order of a map iteration. Fails when not
      even one channel can be afforded. It stops early only when the rest of the
      funds is too small, and every channel but the last has the full size. */
  method BuildDirectives(h: Constraints, availableFunds: int, chosen: set<NodeID>) returns (ok: bool, ds: seq<Directive>)
    requires availableFunds >= 0
    ensures ok <==> availableFunds >= h.minChanSize && h.maxChanSize >= h.minChanSize
    ensures WithinFunds(h, ds, availableFunds) && |ds| <= |chosen|
    ensures forall i :: 0 <= i < |ds| ==> ds[i].node in chosen
    ensures !ok ==> ds == []
    ensures ok && |ds| < |chosen| ==> availableFunds - Sum(Amounts(ds)) < h.minChanSize
    ensures h.minChanSize > 0 ==> AllButLastFull(h, ds)
    ensures h.minChanSize > 0 && ds != [] && ds[|ds| - 1].amount < h.maxChanSize ==> Sum(Amounts(ds)) == availableFunds
  {
    ds := [];
    var chanSize := h.maxChanSize;
    if availableFunds < chanSize {
      chanSize := availableFunds;
    }
    if chanSize < h.minChanSize {
      return false, [];
    }
    ok := true;
    var left := availableFunds;
    var todo := chosen;
    while todo != {}
      invariant Placed(h, ds, chosen, todo)
      invariant Paid(h, ds, availableFunds, left, chanSize)
    {
      var node :| node in todo;
      if left < chanSize {
        chanSize := left;
      }
      if chanSize < h.minChanSize {
        break;
      }
      PlacedNext(h, ds, chosen, todo, Directive(node, chanSize));
      PaidNext(h, ds, availableFunds, left, Directive(node, chanSize));
      left := left - chanSize;
      todo := todo - {node};
      ds := ds + [Directive(node, chanSize)];
    }
  }

  /** One directive of an admissible size for every chosen node that is no longer to do. */
  ghost predicate Placed(h: Constraints, ds: seq<Directive>, chosen: set<NodeID>, todo: set<NodeID>) {
    && todo <= chosen && |ds| + |todo| == |chosen|
    && (forall i :: 0 <= i < |ds| ==> ds[i].node in chosen && ds[i].node !in todo)
    && (forall i :: 0 <= i < |ds| ==> h.minChanSize <= ds[i].amount <= h.maxChanSize)
    && (forall i, j :: 0 <= i < j < |ds| ==> ds[i].node != ds[j].node)
  }

  lemma PlacedNext(h: Constraints, ds: seq<Directive>, chosen: set<NodeID>, todo: set<NodeID>, d: Directive)
    requires Placed(h, ds, chosen, todo) && d.node in todo && h.minChanSize <= d.amount <= h.maxChanSize
    ensures Placed(h, ds + [d], chosen, todo - {d.node})
  {
  }

  /** What is left of the funds, and the size of the next channel if they last. */
  ghost predicate Paid(h: Constraints, ds: seq<Directive>, funds: int, left: int, chanSize: int) {
    && Sum(Amounts(ds)) + left == funds && left >= 0
    && h.minChanSize <= chanSize <= h.maxChanSize
    && (h.minChanSize > 0 ==> AllButLastFull(h, ds))
    && (h.minChanSize > 0 && chanSize < h.maxChanSize ==> left == if ds == [] then chanSize else 0)
    && (chanSize == h.maxChanSize ==> forall i :: 0 <= i < |ds| ==> ds[i].amount == h.maxChanSize)
  }

  lemma PaidNext(h: Constraints, ds: seq<Directive>, funds: int, left: int, d: Directive)
    requires Sum(Amounts(ds)) + left == funds && 0 <= left && d.amount <= left
    requires h.minChanSize <= d.amount <= h.maxChanSize
    requires h.minChanSize > 0 ==> AllButLastFull(h, ds + [d])
    requires h.minChanSize > 0 && d.amount < h.maxChanSize ==> left == d.amount
    requires d.amount == h.maxChanSize ==> forall i :: 0 <= i < |ds| ==> ds[i].amount == h.maxChanSize
    ensures Paid(h, ds + [d], funds, left - d.amount, d.amount)
  {
    assert Amounts(ds + [d]) == Amounts(ds) + [d.amount];
    SumAppend(Amounts(ds), d.amount);
  }

  ghost function Wanted(scores: map<NodeID, real>): set<NodeID> { set k | k in scores && scores[k] > 0.0 }

  /** One round of the controller, from the budget to the directives. Together with the channels they stay
      within the limit and the allocation; there are none only when there is no slot, no node worth a channel
      or not enough money, and fewer than slots and nodes allow only when the rest of the money is too little. */
  method PlanRound(h: Constraints, channels: seq<int>, funds: int, scores: map<NodeID, real>, draws: nat -> real,
                   ghost later: nat -> nat)
    returns (available: int, num: nat, ds: seq<Directive>)
    requires funds >= 0 && forall i :: 0 <= i < |channels| ==> channels[i] >= 0
    requires forall k :: k in scores ==> scores[k] >= 0.0
    requires forall i :: 0.0 <= draws(i) < 1.0
    requires forall i :: later(i) >= i && draws(later(i)) > 0.0
    ensures num > 0 <==> |channels| < h.chanLimit && funds + Sum(channels) > 0
                         && Sum(channels) as real / (funds + Sum(channels)) as real < h.allocation
    ensures |ds| <= num && (num > 0 ==> |channels| + num == h.chanLimit)
    ensures WithinFunds(h, ds, available)
    ensures forall i :: 0 <= i < |ds| ==> ds[i].node in scores
    ensures (forall i :: draws(i) > 0.0) ==> forall i :: 0 <= i < |ds| ==> ds[i].node in Wanted(scores)
    ensures ds != [] ==>
      (Sum(channels) + Sum(Amounts(ds))) as real <= h.allocation * (funds + Sum(channels)) as real
    ensures ds == [] <==> num == 0 || available == 0 || available < h.minChanSize || h.maxChanSize < h.minChanSize
                          || Wanted(scores) == {}
    ensures ds != [] && |ds| < num && |ds| < |Wanted(scores)| ==> available - Sum(Amounts(ds)) < h.minChanSize
  {
    ds := [];
    available, num := ChannelBudget(h, channels, funds);
    if num == 0 || available == 0 || available < h.minChanSize {
      return;
    }
    var chosen := ChooseN(num, scores, draws, later);
    if |chosen| < num { SubsetSize(Wanted(scores), chosen.Keys); }
    if chosen != map[] {
      ghost var k :| k in scores && scores[k] > 0.0;
      assert k in Wanted(scores);
    }
    var ok, built := BuildDirectives(h, available, chosen.Keys);
    ds := built;
  }
}
