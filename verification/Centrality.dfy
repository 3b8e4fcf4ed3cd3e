/** The reverse pass of betweennessCentrality: the in-place accumulation of dependencies. */
module Centrality {
  import opened Sums
  import opened ShortestPaths
  import opened Dependencies
  import opened Search

  /** f(st[k]) + f(st[k+1]) + ...: what the nodes popped so far have passed on. */
  ghost function SumFrom(st: seq<int>, k: nat, f: int -> real): real
    decreases |st| - k
  {
    if k >= |st| then 0.0 else f(st[k]) + SumFrom(st, k + 1, f)
  }

  /** A sum over distinct popped nodes is the sum over all nodes when the others contribute nothing. */
  lemma {:induction false} SumFromAll(st: seq<int>, k: nat, n: nat, f: int -> real, rest: int -> real)
    requires k <= |st| && Distinct(st) && forall i :: 0 <= i < |st| ==> 0 <= st[i] < n
    requires forall x :: 0 <= x < n ==> rest(x) == if x in st[k..] then f(x) else 0.0
    ensures SumFrom(st, k, f) == Sum(n, rest)
    decreases |st| - k
  {
    if k == |st| {
      SumSingle(n, n, rest);
    } else {
      var w := st[k];
      assert st[k..] == [w] + st[k + 1..];
      var rest' := x => if x in st[k + 1..] then f(x) else 0.0;
      SumFromAll(st, k + 1, n, f, rest');
      var one := x => if x == w then f(x) else 0.0;
      SumSingle(n, w, one);
      assert w !in st[k + 1..];
      SumAdds(n, rest', one, rest);
    }
  }

  lemma SumFromSupport(st: seq<int>, k: nat, n: nat, f: int -> real)
    requires k <= |st| && Distinct(st) && forall i :: 0 <= i < |st| ==> 0 <= st[i] < n
    requires forall x :: 0 <= x < n && x !in st[k..] ==> f(x) == 0.0
    ensures SumFrom(st, k, f) == Sum(n, f)
  {
    SumFromAll(st, k, n, f, f);
  }

  /** When w is popped, every node that depends on it has been popped before. */
  lemma DependencyPopped(g: Graph, s: int, f: Frontier, k: nat)
    requires Closed(g) && Searched(g, s, f) && k < |f.st|
    ensures SumFrom(f.st, k + 1, Contributions(g, s, f.st[k])) == Dependency(g, s, f.st[k])
  {
    var w := f.st[k];
    OnlyPopped(g, s, f, k);
    assert forall i :: 0 <= i < |f.st| ==> f.st[i] in f.st;
    SumFromSupport(f.st, k + 1, |g|, Contributions(g, s, w));
    assert w in f.st;
    Recurrence(g, s, w);
  }

  lemma OnlyPopped(g: Graph, s: int, f: Frontier, k: nat)
    requires Searched(g, s, f) && k < |f.st|
    ensures forall x :: 0 <= x < |g| && x !in f.st[k + 1..] ==> Contributions(g, s, f.st[k])(x) == 0.0
  {
    forall x | 0 <= x < |g| && x !in f.st[k + 1..] ensures Contributions(g, s, f.st[k])(x) == 0.0 {
      SuccessorPopped(g, s, f, k, x);
    }
  }

  lemma SuccessorPopped(g: Graph, s: int, f: Frontier, k: nat, x: int)
    requires Searched(g, s, f) && k < |f.st| && 0 <= x < |g| && x !in f.st[k + 1..]
    ensures !Precedes(g, s, f.st[k], x)
  {
    assert Dist(g, s, x) >= 0 ==> x in f.st;
  }

  /** Brandes' equation: the share of w's dependency that one channel from v to w passes back. */
  function Share(sigmaV: int, sigmaW: int, deltaW: real): real
    requires sigmaW != 0
  {
    (sigmaV as real / sigmaW as real) * (1.0 + deltaW)
  }

  lemma ShareIsWorth(g: Graph, s: int, v: int, w: int)
    requires Sigma(g, s, w) != 0
    ensures Share(Sigma(g, s, v), Sigma(g, s, w), Dependency(g, s, w))
         == Worth(g, s, v, w, 1.0 + Dependency(g, s, w))
  {}

  /** The inner loop of the reverse pass over the predecessors of w. */
  method PassBack(delta: array<real>, preds: seq<int>, sigma: array<int>, w: int)
    requires 0 <= w < delta.Length == sigma.Length && sigma[w] != 0
    requires forall i :: 0 <= i < |preds| ==> 0 <= preds[i] < delta.Length && preds[i] != w
    modifies delta
    ensures forall v :: 0 <= v < delta.Length ==>
      delta[v] == old(delta[v]) + Times(Occurrences(preds, v), Share(sigma[v], sigma[w], old(delta[w])))
  {
    for i := 0 to |preds|
      invariant delta[w] == old(delta[w])
      invariant forall v :: 0 <= v < delta.Length ==>
        delta[v] == old(delta[v]) + Times(Occurrences(preds[..i], v), Share(sigma[v], sigma[w], old(delta[w])))
    {
      assert preds[..i + 1] == preds[..i] + [preds[i]];
      var v := preds[i];
      delta[v] := delta[v] + Share(sigma[v], sigma[w], delta[w]);
    }
    assert preds[..|preds|] == preds;
  }

  /** What popping w adds to delta[v]. */
  lemma PopAdds(g: Graph, s: int, f: Frontier, k: nat, v: int)
    requires Closed(g) && Searched(g, s, f) && k < |f.st| && 0 <= v < |g|
    ensures 0 <= f.st[k] < |g| && f.sigma[f.st[k]] > 0
    ensures Times(Occurrences(f.pred[f.st[k]], v), Share(f.sigma[v], f.sigma[f.st[k]], Dependency(g, s, f.st[k])))
         == Contributions(g, s, v)(f.st[k])
  {
    var w := f.st[k];
    assert w in f.st;
    ShareIsWorth(g, s, v, w);
  }

  lemma PredsInRange(g: Graph, s: int, f: Frontier, w: int)
    requires Closed(g) && Searched(g, s, f) && 0 <= w < |g|
    ensures forall i :: 0 <= i < |f.pred[w]| ==> 0 <= f.pred[w][i] < |g| && f.pred[w][i] != w
  {
    forall i | 0 <= i < |f.pred[w]| ensures 0 <= f.pred[w][i] < |g| && f.pred[w][i] != w {
      assert Occurrences(f.pred[w], f.pred[w][i]) > 0;
    }
  }

  /** delta after the nodes st[k..] have been popped. */
  ghost predicate Accumulated(g: Graph, s: int, st: seq<int>, k: nat, delta: seq<real>) {
    |delta| == |g| && forall v :: 0 <= v < |g| ==> delta[v] == SumFrom(st, k, Contributions(g, s, v))
  }

  lemma AccumulatedStep(g: Graph, s: int, f: Frontier, k: nat, delta: seq<real>, delta': seq<real>)
    requires Closed(g) && Searched(g, s, f) && k < |f.st| && |delta'| == |delta|
    requires Accumulated(g, s, f.st, k + 1, delta)
    requires 0 <= f.st[k] < |g| && f.sigma[f.st[k]] != 0
    requires forall v :: 0 <= v < |delta| ==>
      delta'[v] == delta[v] + Times(Occurrences(f.pred[f.st[k]], v), Share(f.sigma[v], f.sigma[f.st[k]], delta[f.st[k]]))
    ensures Accumulated(g, s, f.st, k, delta')
  {
    DependencyPopped(g, s, f, k);
    forall v | 0 <= v < |g| ensures delta'[v] == SumFrom(f.st, k, Contributions(g, s, v)) {
      PopAdds(g, s, f, k, v);
    }
  }

  /** Popping the next node w and passing its dependency back to its predecessors. */
  method PopNext(g: Graph, ghost s: int, ghost f: Frontier, k: nat, st: seq<int>, sigma: array<int>,
                 pred: array<seq<int>>, delta: array<real>)
    returns (w: int)
    requires Closed(g) && Searched(g, s, f) && k < |st| && delta.Length == |g|
    requires st == f.st && sigma[..] == f.sigma && pred[..] == f.pred
    requires Accumulated(g, s, st, k + 1, delta[..])
    modifies delta
    ensures w == st[k] && 0 <= w < |g| && delta[w] == Dependency(g, s, w)
    ensures Accumulated(g, s, st, k, delta[..])
  {
    w := st[k];
    assert w in f.st;
    DependencyPopped(g, s, f, k);
    PopAdds(g, s, f, k, w);
    PredsInRange(g, s, f, w);
    ghost var before := delta[..];
    PassBack(delta, pred[w], sigma, w);
    NotOwnPred(g, s, f, w, Share(sigma[w], sigma[w], before[w]));
    AccumulatedStep(g, s, f, k, before, delta[..]);
  }

  lemma NotOwnPred(g: Graph, s: int, f: Frontier, w: int, x: real)
    requires Searched(g, s, f) && 0 <= w < |g|
    ensures Times(Occurrences(f.pred[w], w), x) == 0.0
  {}

  lemma UnreachableDependency(g: Graph, s: int, v: int)
    requires Dist(g, s, v) < 0
    ensures Dependency(g, s, v) == 0.0
  {
    forall t | 0 <= t < |g| ensures Pairs(g, s, v)(t) == 0.0 {
      if Dist(g, s, t) >= 0 && t != v { PairFormula(g, s, v, t); }
    }
    SumSingle(|g|, |g|, Pairs(g, s, v));
  }

  /** What has been credited to v once the nodes st[k..] have been popped. */
  ghost function Credit(g: Graph, s: int, st: seq<int>, k: nat, v: int): real {
    if v != s && k <= |st| && v in st[k..] then Dependency(g, s, v) else 0.0
  }

  lemma CreditStep(g: Graph, s: int, st: seq<int>, k: nat, v: int)
    requires k < |st| && Distinct(st)
    ensures Credit(g, s, st, k, v)
         == Credit(g, s, st, k + 1, v) + if v == st[k] && v != s then Dependency(g, s, v) else 0.0
  {
    assert st[k..] == [st[k]] + st[k + 1..];
  }

  /** The reverse pass over the stack. */
  method ReversePass(g: Graph, s: int, ghost f: Frontier, st: seq<int>, sigma: array<int>,
                     pred: array<seq<int>>, centrality: array<real>)
    requires Closed(g) && Searched(g, s, f) && centrality.Length == |g|
    requires st == f.st && sigma[..] == f.sigma && pred[..] == f.pred
    modifies centrality
    ensures forall v :: 0 <= v < |g| ==> centrality[v] == old(centrality[v]) + Credit(g, s, st, 0, v)
  {
    var delta := new real[|g|](_ => 0.0);
    PopAll(g, s, f, st, sigma, pred, delta, centrality);
  }

  method PopAll(g: Graph, s: int, ghost f: Frontier, st: seq<int>, sigma: array<int>,
                pred: array<seq<int>>, delta: array<real>, centrality: array<real>)
    requires Closed(g) && Searched(g, s, f) && delta != centrality && delta.Length == centrality.Length == |g|
    requires st == f.st && sigma[..] == f.sigma && pred[..] == f.pred
    requires Accumulated(g, s, st, |st|, delta[..])
    modifies delta, centrality
    ensures forall v :: 0 <= v < |g| ==> centrality[v] == old(centrality[v]) + Credit(g, s, st, 0, v)
    ensures forall v :: 0 <= v < |g| ==> delta[v] == Dependency(g, s, v)
  {
    var k := |st|;
    while k > 0
      invariant 0 <= k <= |st|
      invariant Accumulated(g, s, st, k, delta[..])
      invariant forall v :: 0 <= v < |g| ==> centrality[v] == old(centrality[v]) + Credit(g, s, st, k, v)
    {
      k := k - 1;
      var w := PopNext(g, s, f, k, st, sigma, pred, delta);
      GiveCredit(g, s, st, k, w, delta[w], old(centrality[..]), centrality);
    }
    AllAccumulated(g, s, f, delta[..]);
  }

  /** When the stack is empty, delta holds the dependency on every node, reachable or not. */
  lemma AllAccumulated(g: Graph, s: int, f: Frontier, delta: seq<real>)
    requires Closed(g) && Searched(g, s, f) && Accumulated(g, s, f.st, 0, delta)
    ensures forall v :: 0 <= v < |g| ==> delta[v] == Dependency(g, s, v)
  {
    forall v | 0 <= v < |g| ensures delta[v] == Dependency(g, s, v) {
      AllPassedBack(g, s, f, v);
    }
  }

  lemma AllPassedBack(g: Graph, s: int, f: Frontier, v: int)
    requires Closed(g) && Searched(g, s, f) && 0 <= v < |g|
    ensures SumFrom(f.st, 0, Contributions(g, s, v)) == Dependency(g, s, v)
  {
    OnlyReached(g, s, f, v);
    assert forall i :: 0 <= i < |f.st| ==> f.st[i] in f.st;
    SumFromSupport(f.st, 0, |g|, Contributions(g, s, v));
    if Dist(g, s, v) >= 0 {
      Recurrence(g, s, v);
    } else {
      UnreachableDependency(g, s, v);
      SumSingle(|g|, |g|, Contributions(g, s, v));
    }
  }

  lemma OnlyReached(g: Graph, s: int, f: Frontier, v: int)
    requires Searched(g, s, f) && 0 <= v < |g|
    ensures forall x :: 0 <= x < |g| && (x !in f.st[0..] || Dist(g, s, v) < 0) ==> Contributions(g, s, v)(x) == 0.0
  {
    assert f.st[0..] == f.st;
  }

  /** So the source's own delta is the number of other nodes it reaches, and all deltas together are the sum of
      their distances. */
  lemma DeltaTotals(g: Graph, s: int, delta: seq<real>, deltas: int -> real)
    requires Closed(g) && 0 <= s < |g| == |delta|
    requires forall v :: 0 <= v < |g| ==> deltas(v) == delta[v] == Dependency(g, s, v)
    ensures delta[s] == Sum(|g|, Reached(g, s))
    ensures Sum(|g|, deltas) == Sum(|g|, Distances(g, s))
  {
    SourceDependency(g, s);
    TotalDependency(g, s);
    SumEqual(|g|, deltas, AllDependencies(g, s));
  }

  /** A popped node other than the source keeps what has been passed back to it. */
  method GiveCredit(ghost g: Graph, s: int, ghost st: seq<int>, ghost k: nat, w: int, d: real,
                    ghost before: seq<real>, centrality: array<real>)
    requires k < |st| && Distinct(st) && w == st[k] && 0 <= w < |g| == |before| == centrality.Length
    requires d == Dependency(g, s, w)
    requires forall v :: 0 <= v < |g| ==> centrality[v] == before[v] + Credit(g, s, st, k + 1, v)
    modifies centrality
    ensures forall v :: 0 <= v < |g| ==> centrality[v] == before[v] + Credit(g, s, st, k, v)
  {
    forall v ensures Credit(g, s, st, k, v) == Credit(g, s, st, k + 1, v)
                     + if v == w && v != s then d else 0.0 {
      CreditStep(g, s, st, k, v);
    }
    if w != s {
      centrality[w] := centrality[w] + d;
    }
  }

  /** betweennessCentrality: adds to every node its dependency on the paths that start at s. */
  method AddDependencies(g: Graph, s: int, centrality: array<real>)
    requires Closed(g) && 0 <= s < |g| == centrality.Length
    modifies centrality
    ensures forall v :: 0 <= v < |g| ==>
      centrality[v] == old(centrality[v]) + if v == s then 0.0 else Dependency(g, s, v)
  {
    var dist, sigma, pred, st := Explore(g, s);
    ghost var f := Frontier(dist[..], sigma[..], pred[..], st, []);
    ReversePass(g, s, f, st, sigma, pred, centrality);
    AllCredited(g, s, f);
  }

  lemma AllCredited(g: Graph, s: int, f: Frontier)
    requires Searched(g, s, f)
    ensures forall v :: 0 <= v < |g| ==> Credit(g, s, f.st, 0, v) == if v == s then 0.0 else Dependency(g, s, v)
  {
    assert f.st[0..] == f.st;
    forall v | 0 <= v < |g| ensures Credit(g, s, f.st, 0, v) == if v == s then 0.0 else Dependency(g, s, v) {
      if Dist(g, s, v) < 0 { UnreachableDependency(g, s, v); }
    }
  }
}
