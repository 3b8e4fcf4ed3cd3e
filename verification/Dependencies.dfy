/** Brandes' theorem: the dependencies of a source satisfy a recurrence over the shortest-path DAG. */
module Dependencies {
  import opened Sums
  import opened ShortestPaths

  /** v immediately precedes w on a shortest path from s whenever a channel joins them. */
  ghost predicate Precedes(g: Graph, s: int, v: int, w: int) {
    0 <= Dist(g, s, v) && Dist(g, s, w) == Dist(g, s, v) + 1
  }

  /** The ratio of the numbers of shortest paths to v and to w. */
  ghost function Ratio(g: Graph, s: int, v: int, w: int): real {
    if Sigma(g, s, w) == 0 then 0.0 else Sigma(g, s, v) as real / Sigma(g, s, w) as real
  }

  /** What an amount at w is worth at v, per channel from v to w. */
  ghost function Worth(g: Graph, s: int, v: int, w: int, amount: real): real {
    Ratio(g, s, v, w) * amount
  }

  /** What an amount at w is worth at its predecessor v over all channels from v to w. */
  ghost function Flow(g: Graph, s: int, v: int, w: int, amount: real): real {
    if Precedes(g, s, v, w) then Times(Channels(g, v, w), Worth(g, s, v, w, amount)) else 0.0
  }

  /** What each w contributes to the dependency of its predecessor v. */
  ghost function Contributions(g: Graph, s: int, v: int): int -> real {
    w => Flow(g, s, v, w, 1.0 + Dependency(g, s, w))
  }

  /** The pair dependency of w, with w itself counted as a target that depends fully on w. */
  ghost function PairOrSame(g: Graph, s: int, w: int, t: int): real {
    if t == w then 1.0 else PairDependency(g, s, w, t)
  }

  /** The part of the contributions that is due to the target t. */
  ghost function PairTerms(g: Graph, s: int, v: int, t: int): int -> real {
    w => Flow(g, s, v, w, PairOrSame(g, s, w, t))
  }

  // ----- arithmetic, apart from any graph

  lemma CancelOnce(v: real, w: nat, n: real, t: real, x: real)
    requires w != 0 && t != 0.0 && x == Times(w, n) / t
    ensures (v / w as real) * x == (v / t) * n
  {
    TimesMultiplies(w, n);
    var r := w as real;
    assert (v / r) * (r * n / t) == ((v / r) * r) * n / t == v * n / t;
  }

  lemma TimesOver(k: nat, x: real, t: real)
    requires t != 0.0
    ensures Times(k, x) / t == (k as real / t) * x
  {
    TimesMultiplies(k, x);
  }

  lemma {:induction false} TimesZero(k: nat)
    ensures Times(k, 0.0) == 0.0
  {
    if k > 0 { TimesZero(k - 1); }
  }

  lemma {:induction false} TimesAdds(k: nat, x: real, y: real, z: real)
    requires z == x + y
    ensures Times(k, z) == Times(k, x) + Times(k, y)
  {
    if k > 0 { TimesAdds(k - 1, x, y, z); }
  }

  lemma RatioAdds(r: real, x: real, y: real)
    ensures r * (x + y) == r * x + r * y
  {}

  // ----- the recurrence for one target

  lemma PairFormula(g: Graph, s: int, v: int, t: int)
    requires Dist(g, s, t) >= 0 && t != v
    ensures PairDependency(g, s, v, t)
         == if 0 <= Dist(g, s, v) <= Dist(g, s, t)
            then Times(Sigma(g, s, v), NumPaths(g, v, t, Dist(g, s, t) - Dist(g, s, v)) as real)
                 / Sigma(g, s, t) as real
            else 0.0
  {
    ThroughCount(g, s, v, t);
  }

  lemma ZeroHops(g: Graph, v: int, t: int)
    ensures NumPaths(g, v, t, 0) == if v == t then 1 else 0
  {
    assert Paths(g, v, t, 0) == if v == t then {[]} else {};
  }

  /** A pair dependency vanishes for a node that is not nearer to s than the target. */
  lemma PairVanishes(g: Graph, s: int, v: int, t: int)
    requires Dist(g, s, v) >= Dist(g, s, t)
    ensures PairDependency(g, s, v, t) == 0.0
  {
    if Dist(g, s, t) >= 0 && t != v {
      PairFormula(g, s, v, t);
      ZeroHops(g, v, t);
      TimesZero(Sigma(g, s, v));
    }
  }

  lemma PairOrSameFormula(g: Graph, s: int, w: int, t: int)
    requires 0 <= Dist(g, s, w) <= Dist(g, s, t)
    ensures PairOrSame(g, s, w, t)
         == Times(Sigma(g, s, w), NumPaths(g, w, t, Dist(g, s, t) - Dist(g, s, w)) as real)
            / Sigma(g, s, t) as real
  {
    if t == w {
      ZeroHops(g, w, t);
      TimesMultiplies(Sigma(g, s, w), 1.0);
    } else {
      PairFormula(g, s, w, t);
    }
  }

  /** A channel to a node off the shortest paths cannot start a path of the remaining length. */
  lemma OffTheWay(g: Graph, s: int, v: int, w: int, t: int, rest: nat)
    requires 0 <= Dist(g, s, v) < Dist(g, s, t) && rest == Dist(g, s, t) - Dist(g, s, v) - 1
    requires !Precedes(g, s, v, w)
    ensures Via(g, v, t, 1, rest)(w) == 0.0
  {
    OneHopPaths(g, v, w);
    if Channels(g, v, w) > 0 && NumPaths(g, w, t, rest) > 0 {
      AdjacentBound(g, s, v, w);
      PathBound(g, s, w, t, rest);
    }
    TimesZero(NumPaths(g, v, w, 1));
  }

  lemma WorthAdds(g: Graph, s: int, v: int, w: int, x: real, y: real, z: real)
    requires z == x + y
    ensures Worth(g, s, v, w, z) == Worth(g, s, v, w, x) + Worth(g, s, v, w, y)
  {
    RatioAdds(Ratio(g, s, v, w), x, y);
  }

  lemma WorthCancels(g: Graph, s: int, v: int, w: int, t: int, n: real, x: real)
    requires Sigma(g, s, w) > 0 && Sigma(g, s, t) > 0
    requires x == Times(Sigma(g, s, w), n) / Sigma(g, s, t) as real
    ensures Worth(g, s, v, w, x) == Worth(g, s, v, t, n)
  {
    CancelOnce(Sigma(g, s, v) as real, Sigma(g, s, w), n, Sigma(g, s, t) as real, x);
  }

  lemma {:induction false} WorthTimes(g: Graph, s: int, v: int, t: int, k: nat, n: real)
    ensures Times(k, Worth(g, s, v, t, n)) == Worth(g, s, v, t, Times(k, n))
  {
    if k > 0 {
      WorthTimes(g, s, v, t, k - 1, n);
      WorthAdds(g, s, v, t, Times(k - 1, n), n, Times(k, n));
    }
  }

  lemma PairTerm(g: Graph, s: int, v: int, w: int, t: int, rest: nat)
    requires 0 <= Dist(g, s, v) < Dist(g, s, t) && rest == Dist(g, s, t) - Dist(g, s, v) - 1
    ensures PairTerms(g, s, v, t)(w) == Worth(g, s, v, t, Via(g, v, t, 1, rest)(w))
  {
    if Precedes(g, s, v, w) {
      OneHopPaths(g, v, w);
      PairOrSameFormula(g, s, w, t);
      var n := NumPaths(g, w, t, rest) as real;
      WorthCancels(g, s, v, w, t, n, PairOrSame(g, s, w, t));
      WorthTimes(g, s, v, t, Channels(g, v, w), n);
    } else {
      OffTheWay(g, s, v, w, t, rest);
    }
  }

  lemma PairTermsVanish(g: Graph, s: int, v: int, w: int, t: int)
    requires 0 <= Dist(g, s, v) && Dist(g, s, t) <= Dist(g, s, v)
    ensures PairTerms(g, s, v, t)(w) == 0.0
  {
    if Precedes(g, s, v, w) {
      PairVanishes(g, s, w, t);
      TimesZero(Channels(g, v, w));
    }
  }

  lemma {:induction false} WorthSums(g: Graph, s: int, v: int, t: int, n: nat, f: int -> real, h: int -> real)
    requires forall w :: 0 <= w < n ==> h(w) == Worth(g, s, v, t, f(w))
    ensures Sum(n, h) == Worth(g, s, v, t, Sum(n, f))
  {
    if n > 0 {
      WorthSums(g, s, v, t, n - 1, f, h);
      WorthAdds(g, s, v, t, Sum(n - 1, f), f(n - 1), Sum(n, f));
    }
  }

  lemma PairSum(g: Graph, s: int, v: int, t: int, rest: nat, paths: real)
    requires 0 <= Dist(g, s, v) < Dist(g, s, t) && rest == Dist(g, s, t) - Dist(g, s, v) - 1
    requires paths == Sum(|g|, Via(g, v, t, 1, rest))
    ensures Sum(|g|, PairTerms(g, s, v, t)) == Worth(g, s, v, t, paths)
  {
    var via := Via(g, v, t, 1, rest);
    forall w | 0 <= w < |g| ensures PairTerms(g, s, v, t)(w) == Worth(g, s, v, t, via(w)) {
      PairTerm(g, s, v, w, t, rest);
    }
    WorthSums(g, s, v, t, |g|, via, PairTerms(g, s, v, t));
  }

  lemma PairWorth(g: Graph, s: int, v: int, t: int, paths: real)
    requires 0 <= Dist(g, s, v) < Dist(g, s, t)
    requires paths == NumPaths(g, v, t, Dist(g, s, t) - Dist(g, s, v)) as real
    ensures PairDependency(g, s, v, t) == Worth(g, s, v, t, paths)
  {
    PairFormula(g, s, v, t);
    TimesOver(Sigma(g, s, v), NumPaths(g, v, t, Dist(g, s, t) - Dist(g, s, v)) as real,
              Sigma(g, s, t) as real);
  }

  /** One target's share of the recurrence. */
  lemma PairRecurrence(g: Graph, s: int, v: int, t: int)
    requires Closed(g) && 0 <= v < |g| && Dist(g, s, v) >= 0
    ensures PairDependency(g, s, v, t) == Sum(|g|, PairTerms(g, s, v, t))
  {
    if Dist(g, s, t) <= Dist(g, s, v) {
      PairVanishes(g, s, v, t);
      forall w | 0 <= w < |g| ensures PairTerms(g, s, v, t)(w) == 0.0 {
        PairTermsVanish(g, s, v, w, t);
      }
      SumSingle(|g|, |g|, PairTerms(g, s, v, t));
    } else {
      PairNearer(g, s, v, t, Dist(g, s, t) - Dist(g, s, v) - 1);
    }
  }

  lemma FirstHops(g: Graph, v: int, t: int, rest: nat, hops: nat, paths: real)
    requires Closed(g) && 0 <= v < |g| && hops == 1 + rest
    requires paths == Sum(|g|, Via(g, v, t, 1, rest))
    ensures paths == NumPaths(g, v, t, hops) as real
  {
    PathsCompose(g, v, t, 1, rest);
  }

  lemma PairNearer(g: Graph, s: int, v: int, t: int, rest: nat)
    requires Closed(g) && 0 <= v < |g|
    requires 0 <= Dist(g, s, v) < Dist(g, s, t) && rest == Dist(g, s, t) - Dist(g, s, v) - 1
    ensures PairDependency(g, s, v, t) == Sum(|g|, PairTerms(g, s, v, t))
  {
    var hops := Dist(g, s, t) - Dist(g, s, v);
    var paths := NumPaths(g, v, t, hops) as real;
    FirstHops(g, v, t, rest, hops, Sum(|g|, Via(g, v, t, 1, rest)));
    PairSum(g, s, v, t, rest, paths);
    PairWorth(g, s, v, t, paths);
  }

  // ----- the recurrence

  lemma FlowAdds(g: Graph, s: int, v: int, w: int, x: real, y: real, z: real)
    requires z == x + y
    ensures Flow(g, s, v, w, z) == Flow(g, s, v, w, x) + Flow(g, s, v, w, y)
  {
    WorthAdds(g, s, v, w, x, y, z);
    TimesAdds(Channels(g, v, w), Worth(g, s, v, w, x), Worth(g, s, v, w, y), Worth(g, s, v, w, z));
  }

  lemma FlowZero(g: Graph, s: int, v: int, w: int)
    ensures Flow(g, s, v, w, 0.0) == 0.0
  {
    TimesZero(Channels(g, v, w));
  }

  lemma {:induction false} FlowSums(g: Graph, s: int, v: int, w: int, n: nat, f: int -> real, flows: int -> real,
                                    total: real)
    requires total == Sum(n, f) && forall t :: 0 <= t < n ==> flows(t) == Flow(g, s, v, w, f(t))
    ensures Sum(n, flows) == Flow(g, s, v, w, total)
  {
    if n == 0 {
      FlowZero(g, s, v, w);
    } else {
      FlowSums(g, s, v, w, n - 1, f, flows, Sum(n - 1, f));
      FlowAdds(g, s, v, w, Sum(n - 1, f), f(n - 1), total);
    }
  }

  /** Counting w as its own target adds exactly 1 to its dependency. */
  lemma OwnTarget(g: Graph, s: int, w: int, pairs: int -> real)
    requires 0 <= w < |g|
    requires forall t :: 0 <= t < |g| ==> pairs(t) == PairOrSame(g, s, w, t)
    ensures Sum(|g|, pairs) == 1.0 + Dependency(g, s, w)
  {
    var same := t => if t == w then 1.0 else 0.0;
    SumSingle(|g|, w, same);
    SumAdds(|g|, Pairs(g, s, w), same, pairs);
  }

  lemma PassedBack(g: Graph, s: int, v: int, w: int, flows: int -> real)
    requires 0 <= w < |g| && forall t :: 0 <= t < |g| ==> flows(t) == PairTerms(g, s, v, t)(w)
    ensures Contributions(g, s, v)(w) == Sum(|g|, flows)
  {
    PairFlows(g, s, v, w, t => PairOrSame(g, s, w, t), flows, 1.0 + Dependency(g, s, w));
  }

  lemma PairFlows(g: Graph, s: int, v: int, w: int, pairs: int -> real, flows: int -> real, total: real)
    requires 0 <= w < |g| && forall t :: 0 <= t < |g| ==> flows(t) == Flow(g, s, v, w, pairs(t))
    requires total == 1.0 + Dependency(g, s, w) && forall t :: 0 <= t < |g| ==> pairs(t) == PairOrSame(g, s, w, t)
    ensures Sum(|g|, flows) == Flow(g, s, v, w, total)
  {
    OwnTarget(g, s, w, pairs);
    FlowSums(g, s, v, w, |g|, pairs, flows, total);
  }

  /** Brandes' theorem: v's dependency is what its successors in the shortest-path DAG pass back. */
  lemma Recurrence(g: Graph, s: int, v: int)
    requires Closed(g) && 0 <= v < |g| && Dist(g, s, v) >= 0
    ensures Dependency(g, s, v) == Sum(|g|, Contributions(g, s, v))
  {
    var table := t => PairTerms(g, s, v, t);
    forall t | 0 <= t < |g| ensures Pairs(g, s, v)(t) == Sum(|g|, table(t)) {
      PairRecurrence(g, s, v, t);
    }
    forall w | 0 <= w < |g| ensures Contributions(g, s, v)(w) == Sum(|g|, Column(table, w)) {
      PassedBack(g, s, v, w, Column(table, w));
    }
    SumSwap(|g|, |g|, table, Pairs(g, s, v), Contributions(g, s, v));
  }

  // ----- what the dependencies add up to

  /** 1 for a reachable node other than the source. */
  ghost function Reached(g: Graph, s: int): int -> real {
    t => if t != s && Dist(g, s, t) >= 0 then 1.0 else 0.0
  }

  lemma SourcePair(g: Graph, s: int, t: int)
    ensures Pairs(g, s, s)(t) == Reached(g, s)(t)
  {
    SourceDist(g, s);
    if t != s && Dist(g, s, t) >= 0 {
      PairFormula(g, s, s, t);
    }
  }

  /** The source depends on itself once for every other node it reaches. */
  lemma SourceDependency(g: Graph, s: int)
    ensures Dependency(g, s, s) == Sum(|g|, Reached(g, s))
  {
    forall t | 0 <= t < |g| ensures Pairs(g, s, s)(t) == Reached(g, s)(t) {
      SourcePair(g, s, t);
    }
    SumEqual(|g|, Pairs(g, s, s), Reached(g, s));
  }

  /** The hop distance of every reachable node. */
  ghost function Distances(g: Graph, s: int): int -> real {
    t => if Dist(g, s, t) >= 0 then Dist(g, s, t) as real else 0.0
  }

  /** The pair dependencies on nodes at distance a. */
  ghost function Level(g: Graph, s: int, t: int, a: int): int -> real {
    v => if Dist(g, s, v) == a then PairDependency(g, s, v, t) else 0.0
  }

  lemma LevelTerm(g: Graph, s: int, t: int, a: nat, v: int)
    requires a < Dist(g, s, t)
    ensures Level(g, s, t, a)(v) == Via(g, s, t, a, Dist(g, s, t) - a)(v) / Sigma(g, s, t) as real
  {
    if Dist(g, s, v) == a {
      PairFormula(g, s, v, t);
    } else {
      TimesZero(NumPaths(g, s, v, a));
      if NumPaths(g, s, v, a) > 0 && NumPaths(g, v, t, Dist(g, s, t) - a) > 0 {
        PathBound(g, s, v, t, Dist(g, s, t) - a);
      }
    }
  }

  lemma {:induction false} SumDivides(n: nat, c: real, f: int -> real, h: int -> real)
    requires c != 0.0 && forall i :: 0 <= i < n ==> h(i) == f(i) / c
    ensures Sum(n, h) == Sum(n, f) / c
  {
    if n > 0 { SumDivides(n - 1, c, f, h); }
  }

  lemma LevelShare(g: Graph, s: int, t: int, a: nat, b: nat, c: real)
    requires 0 < b && Dist(g, s, t) == a + b && c == Sigma(g, s, t) as real
    ensures c != 0.0 && Sum(|g|, Level(g, s, t, a)) == Sum(|g|, Via(g, s, t, a, b)) / c
  {
    forall v | 0 <= v < |g| ensures Level(g, s, t, a)(v) == Via(g, s, t, a, b)(v) / c {
      LevelTerm(g, s, t, a, v);
    }
    SumDivides(|g|, c, Via(g, s, t, a, b), Level(g, s, t, a));
  }

  lemma SigmaSum(g: Graph, s: int, t: int, a: nat, b: nat)
    requires Closed(g) && 0 <= s < |g| && Dist(g, s, t) == a + b
    ensures Sum(|g|, Via(g, s, t, a, b)) == Sigma(g, s, t) as real
  {
    PathsCompose(g, s, t, a, b);
  }

  lemma OverItself(x: real, c: real)
    requires c != 0.0 && x == c
    ensures x / c == 1.0
  {}

  /** Every shortest path meets exactly one node of each distance below that of its end. */
  lemma LevelSum(g: Graph, s: int, t: int, a: nat)
    requires Closed(g) && 0 <= s < |g| && a < Dist(g, s, t)
    ensures Sum(|g|, Level(g, s, t, a)) == 1.0
  {
    var b, c := Dist(g, s, t) - a, Sigma(g, s, t) as real;
    SigmaSum(g, s, t, a, b);
    LevelShare(g, s, t, a, b, c);
    OverItself(Sum(|g|, Via(g, s, t, a, b)), c);
  }

  /** The pair dependencies on all nodes nearer than distance k. */
  ghost function Below(g: Graph, s: int, t: int, k: int): int -> real {
    v => if 0 <= Dist(g, s, v) < k then PairDependency(g, s, v, t) else 0.0
  }

  lemma {:induction false} BelowSum(g: Graph, s: int, t: int, k: nat)
    requires Closed(g) && 0 <= s < |g| && k <= Dist(g, s, t)
    ensures Sum(|g|, Below(g, s, t, k)) == k as real
  {
    if k == 0 {
      SumSingle(|g|, |g|, Below(g, s, t, 0));
    } else {
      BelowSum(g, s, t, k - 1);
      LevelSum(g, s, t, k - 1);
      SumAdds(|g|, Below(g, s, t, k - 1), Level(g, s, t, k - 1), Below(g, s, t, k));
    }
  }

  /** Everything on which the target t depends, by node. */
  ghost function OnTarget(g: Graph, s: int, t: int): int -> real {
    v => PairDependency(g, s, v, t)
  }

  lemma TargetSum(g: Graph, s: int, t: int)
    requires Closed(g) && 0 <= s < |g|
    ensures Sum(|g|, OnTarget(g, s, t)) == Distances(g, s)(t)
  {
    var d := if Dist(g, s, t) >= 0 then Dist(g, s, t) else 0;
    forall v | 0 <= v < |g| ensures OnTarget(g, s, t)(v) == Below(g, s, t, d)(v) {
      if Dist(g, s, t) >= 0 {
        if Dist(g, s, v) >= Dist(g, s, t) { PairVanishes(g, s, v, t); }
        else if Dist(g, s, v) < 0 && t != v { PairFormula(g, s, v, t); }
      }
    }
    SumEqual(|g|, OnTarget(g, s, t), Below(g, s, t, d));
    if Dist(g, s, t) >= 0 { BelowSum(g, s, t, d); } else { SumSingle(|g|, |g|, Below(g, s, t, 0)); }
  }

  /** The dependency of s on each node. */
  ghost function AllDependencies(g: Graph, s: int): int -> real {
    v => Dependency(g, s, v)
  }

  /** The dependencies of s on all nodes add up to the sum of the distances from s. */
  lemma TotalDependency(g: Graph, s: int)
    requires Closed(g) && 0 <= s < |g|
    ensures Sum(|g|, AllDependencies(g, s)) == Sum(|g|, Distances(g, s))
  {
    var table := t => OnTarget(g, s, t);
    forall t | 0 <= t < |g| ensures Distances(g, s)(t) == Sum(|g|, table(t)) {
      TargetSum(g, s, t);
    }
    forall v | 0 <= v < |g| ensures AllDependencies(g, s)(v) == Sum(|g|, Column(table, v)) {
      SumEqual(|g|, Pairs(g, s, v), Column(table, v));
    }
    SumSwap(|g|, |g|, table, Distances(g, s), AllDependencies(g, s));
  }
}
