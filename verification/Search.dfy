/** The breadth-first search of betweennessCentrality, with the invariant that ties its arrays to
    the path-counting definitions. */
module Search {
  import opened Sums
  import opened ShortestPaths
  import opened Dependencies

  /** The local state of the search: the slices dist, sigma and pred, the stack and the queue. */
  datatype Frontier = Frontier(dist: seq<int>, sigma: seq<int>, pred: seq<seq<int>>, st: seq<int>, q: seq<int>)

  /** What the search has computed when the queue is empty. */
  ghost predicate Searched(g: Graph, s: int, f: Frontier) {
    && Sized(g, f)
    && (forall t :: 0 <= t < |g| ==> f.dist[t] == Dist(g, s, t) && f.sigma[t] == Sigma(g, s, t))
    && (forall t :: 0 <= t < |g| ==> AllPreds(g, s, t, f.pred[t]))
    && Distinct(f.st)
    && (forall x :: x in f.st <==> 0 <= x < |g| && Dist(g, s, x) >= 0)
    && (forall i, j :: 0 <= i < j < |f.st| ==> Dist(g, s, f.st[i]) <= Dist(g, s, f.st[j]))
  }

  ghost predicate AllPreds(g: Graph, s: int, w: int, preds: seq<int>) {
    forall u :: Occurrences(preds, u) == if Precedes(g, s, u, w) then Channels(g, u, w) else 0
  }

  ghost predicate Distinct(s: seq<int>) {
    forall i, j :: 0 <= i < j < |s| ==> s[i] != s[j]
  }

  ghost predicate Sized(g: Graph, f: Frontier) {
    |f.dist| == |g| && |f.sigma| == |g| && |f.pred| == |g|
  }

  // ----- the invariant, stated over a table td of the true distances from s and a function sig
  // ----- giving the true number of shortest paths

  /** Stack and queue together list the discovered nodes, once each, by non-decreasing distance,
      and dist is exact on them. */
  ghost predicate Ordered(td: seq<int>, s: int, dist: seq<int>, st: seq<int>, q: seq<int>)
    requires |dist| == |td|
  {
    var o := st + q;
    && Distinct(o)
    && (forall i :: 0 <= i < |o| ==> 0 <= o[i] < |td| && td[o[i]] >= 0)
    && (forall x {:trigger dist[x]} :: 0 <= x < |td| ==> dist[x] == if x in o then td[x] else -1)
    && (forall i, j :: 0 <= i < j < |o| ==> td[o[i]] <= td[o[j]])
    && (st == [] ==> q == [s])
    && (st != [] ==> s in st)
    && (st != [] ==> forall i :: |st| <= i < |o| ==> td[o[i]] <= td[o[|st| - 1]] + 1)
  }

  ghost predicate Counters(g: Graph, done: seq<int>) {
    |done| == |g| && forall u :: 0 <= u < |g| ==> 0 <= done[u] <= |g[u]|
  }

  /** done[u] channels of u have been followed: all of them for a finished node of the stack, none
      for a node that is still queued or undiscovered. */
  ghost predicate Followed(g: Graph, dist: seq<int>, st: seq<int>, done: seq<int>, finished: int)
    requires Closed(g) && |dist| == |g| && Counters(g, done)
  {
    && 0 <= finished <= |st|
    && (forall i :: 0 <= i < finished && 0 <= st[i] < |g| ==> done[st[i]] == |g[st[i]]|)
    && (forall u :: 0 <= u < |g| && u !in st ==> done[u] == 0)
    && (forall u, k :: 0 <= u < |g| && 0 <= k < done[u] ==> dist[g[u][k]] >= 0)
  }

  ghost predicate OneFarther(td: seq<int>, u: int, w: int) {
    0 <= u < |td| && 0 <= w < |td| && 0 <= td[u] && td[w] == td[u] + 1
  }

  /** How often u is listed as predecessor of w: once per followed channel on a shortest path. */
  ghost function PredCount(g: Graph, td: seq<int>, done: seq<int>, u: int, w: int): nat
    requires Counters(g, done) && |td| == |g|
  {
    if OneFarther(td, u, w) then Occurrences(g[u][..done[u]], w) else 0
  }

  ghost predicate PredsListed(g: Graph, td: seq<int>, pred: seq<seq<int>>, done: seq<int>)
    requires Counters(g, done) && |td| == |g|
  {
    forall w, u :: 0 <= w < |pred| ==> Occurrences(pred[w], u) == PredCount(g, td, done, u, w)
  }

  ghost predicate SigmaCounts(s: int, sig: int -> real, sigma: seq<int>, pred: seq<seq<int>>)
    requires |sigma| == |pred|
  {
    forall w :: 0 <= w < |pred| ==>
      sigma[w] as real == (if w == s then 1.0 else 0.0) + SumOver(pred[w], sig)
  }

  /** The search invariant: the first `finished` nodes of the stack have been followed completely. */
  ghost predicate Invariant(g: Graph, s: int, td: seq<int>, sig: int -> real, f: Frontier,
                            done: seq<int>, finished: int) {
    && Closed(g) && 0 <= s < |g| && |td| == |g|
    && Sized(g, f) && Counters(g, done)
    && Ordered(td, s, f.dist, f.st, f.q)
    && Followed(g, f.dist, f.st, done, finished)
    && PredsListed(g, td, f.pred, done)
    && SigmaCounts(s, sig, f.sigma, f.pred)
  }

  ghost function SigmaOf(g: Graph, s: int): int -> real {
    u => Sigma(g, s, u) as real
  }

  /** td holds the true distances from s. */
  ghost predicate Truth(g: Graph, s: int, td: seq<int>) {
    && |td| == |g|
    && (forall x {:trigger Dist(g, s, x)} :: 0 <= x < |td| ==> td[x] == Dist(g, s, x))
    && (forall x :: 0 <= x < |td| ==> td[x] >= -1)
  }

  ghost function TrueDistances(g: Graph, s: int): (td: seq<int>)
    ensures Truth(g, s, td) && (0 <= s < |g| ==> td[s] == 0)
  {
    SourceDist(g, s);
    seq(|g|, x => Dist(g, s, x))
  }

  // ----- facts about shortest paths that the search relies on

  /** Every reachable node other than s is preceded by a node one hop nearer to s. */
  lemma PredecessorExists(g: Graph, s: int, t: int) returns (u: int)
    requires Closed(g) && 0 <= s < |g| && t != s && Dist(g, s, t) >= 0
    ensures 0 <= u < |g| && Precedes(g, s, u, t) && Channels(g, u, t) > 0
  {
    var d := Dist(g, s, t);
    ZeroHops(g, s, t);
    var p :| p in Paths(g, s, t, d);
    u := NodeAt(g, s, p, d - 1);
    NodesInGraph(g, s, p, d - 1);
    VisitPosition(g, s, t, p, d - 1);
    assert p == p[..d - 1] + p[d - 1..];
    SplitPath(g, s, t, p[..d - 1], p[d - 1..]);
    assert p[d - 1..] in Paths(g, u, t, 1);
    OneHopPaths(g, u, t);
  }

  /** When every channel out of P leads into D and the rest of D is at distance d or more, a node
      outside D is at distance more than d. */
  lemma {:induction false} UndiscoveredFar(g: Graph, s: int, td: seq<int>, D: set<int>, P: set<int>, d: int, t: int)
    requires Closed(g) && 0 <= s < |g| && Truth(g, s, td) && s in D
    requires forall u, k :: u in P && 0 <= u < |g| && 0 <= k < |g[u]| ==> g[u][k] in D
    requires forall u :: 0 <= u < |g| && u in D && u !in P ==> td[u] >= d
    requires 0 <= t < |g| && t !in D && td[t] >= 0
    ensures td[t] > d
    decreases td[t]
  {
    var u := PredecessorExists(g, s, t);
    assert exists k :: 0 <= k < |g[u]| && g[u][k] == t by {
      assert t in multiset(g[u]);
    }
    if u !in D {
      UndiscoveredFar(g, s, td, D, P, d, u);
    }
  }

  /** A node with all its predecessors listed has its number of shortest paths summed up. */
  lemma SigmaComplete(g: Graph, s: int, w: int, preds: seq<int>)
    requires Closed(g) && 0 <= s < |g| && 0 <= w < |g|
    requires AllPreds(g, s, w, preds)
    ensures Sigma(g, s, w) as real == (if w == s then 1.0 else 0.0) + SumOver(preds, SigmaOf(g, s))
  {
    SourceDist(g, s);
    if Dist(g, s, w) <= 0 {
      NoPreds(g, s, w, preds);
      ZeroHops(g, s, w);
    } else {
      LastHops(g, s, w, preds, Dist(g, s, w) - 1);
    }
  }

  lemma NoPreds(g: Graph, s: int, w: int, preds: seq<int>)
    requires AllPreds(g, s, w, preds) && Dist(g, s, w) <= 0
    ensures preds == []
  {
    if preds != [] {
      LastOccurs(preds);
      assert false;
    }
  }

  lemma LastHops(g: Graph, s: int, w: int, preds: seq<int>, a: nat)
    requires Closed(g) && 0 <= s < |g|
    requires Dist(g, s, w) == a + 1 && AllPreds(g, s, w, preds)
    ensures Sigma(g, s, w) as real == SumOver(preds, SigmaOf(g, s))
  {
    LastHopsAgree(g, s, w, preds, a);
    SigmaComposes(g, s, w, a);
  }

  lemma SigmaComposes(g: Graph, s: int, w: int, a: nat)
    requires Closed(g) && 0 <= s < |g| && Dist(g, s, w) == a + 1
    ensures Sigma(g, s, w) as real == Sum(|g|, Via(g, s, w, a, 1))
  {
    PathsCompose(g, s, w, a, 1);
  }

  lemma LastHopsAgree(g: Graph, s: int, w: int, preds: seq<int>, a: nat)
    requires Dist(g, s, w) == a + 1 && AllPreds(g, s, w, preds)
    ensures SumOver(preds, SigmaOf(g, s)) == Sum(|g|, Via(g, s, w, a, 1))
  {
    var via := Via(g, s, w, a, 1);
    forall k | 0 <= k < |preds| ensures 0 <= preds[k] < |g| {
      assert Occurrences(preds, preds[k]) > 0;
    }
    forall u | 0 <= u < |g| ensures via(u) == Times(Occurrences(preds, u), SigmaOf(g, s)(u)) {
      LastHop(g, s, w, u, a);
    }
    SumOverCounts(preds, |g|, SigmaOf(g, s), via);
  }

  lemma LastHop(g: Graph, s: int, w: int, u: int, a: nat)
    requires Dist(g, s, w) == a + 1
    ensures Via(g, s, w, a, 1)(u)
         == Times(if Precedes(g, s, u, w) then Channels(g, u, w) else 0, Sigma(g, s, u) as real)
  {
    OneHopPaths(g, u, w);
    if Precedes(g, s, u, w) {
      TimesCommutes(Sigma(g, s, u), Channels(g, u, w));
    } else {
      if NumPaths(g, s, u, a) > 0 && Channels(g, u, w) > 0 {
        AdjacentBound(g, s, u, w);
      }
      TimesZero(NumPaths(g, s, u, a));
    }
  }

  lemma TimesCommutes(a: nat, b: nat)
    ensures Times(a, b as real) == Times(b, a as real)
  {
    TimesMultiplies(a, b as real);
    TimesMultiplies(b, a as real);
  }

  lemma {:induction false} DistinctBounded(o: seq<int>, n: nat)
    requires Distinct(o) && forall i :: 0 <= i < |o| ==> 0 <= o[i] < n
    ensures |o| <= n
  {
    var elems := set i | 0 <= i < |o| :: o[i];
    DistinctSize(o, elems);
    RangeSize(n, elems);
  }

  lemma {:induction false} DistinctSize(o: seq<int>, elems: set<int>)
    requires Distinct(o) && forall x :: x in elems <==> x in o
    ensures |elems| == |o|
  {
    if o == [] {
      NoMembers(elems);
    } else {
      var last := o[|o| - 1];
      assert o == o[..|o| - 1] + [last];
      DistinctSize(o[..|o| - 1], elems - {last});
    }
  }

  lemma {:induction false} RangeSize(n: nat, elems: set<int>)
    requires forall x :: x in elems ==> 0 <= x < n
    ensures |elems| <= n
  {
    if n == 0 {
      NoMembers(elems);
    } else {
      RangeSize(n - 1, elems - {n - 1});
    }
  }

  // ----- the steps keep the invariant

  function Start(g: Graph, s: int): Frontier
    requires 0 <= s < |g|
  {
    Frontier(seq(|g|, i => -1)[s := 0], seq(|g|, i => 0)[s := 1], seq(|g|, i => []), [], [s])
  }

  lemma StartKeeps(g: Graph, s: int, td: seq<int>, sig: int -> real)
    requires Closed(g) && 0 <= s < |g| && |td| == |g| && td[s] == 0
    ensures Invariant(g, s, td, sig, Start(g, s), seq(|g|, i => 0), 0)
  {
    var f, done := Start(g, s), seq(|g|, i => 0);
    assert f.st + f.q == [s];
    assert forall u :: 0 <= u < |g| ==> g[u][..done[u]] == [];
  }

  /** An undiscovered node is farther away than the first unfinished one. */
  lemma Undiscovered(g: Graph, s: int, td: seq<int>, dist: seq<int>, st: seq<int>, q: seq<int>,
                     done: seq<int>, finished: int, t: int)
    requires Closed(g) && 0 <= s < |g| && Truth(g, s, td) && |dist| == |g| && Counters(g, done)
    requires Ordered(td, s, dist, st, q) && Followed(g, dist, st, done, finished)
    requires finished < |st + q| && 0 <= t < |g| && t !in st + q && td[t] >= 0
    ensures td[t] > td[(st + q)[finished]]
  {
    var o := st + q;
    var D, P := set x | x in o, set x | x in o[..finished];
    forall u | 0 <= u < |g| && u in D && u !in P ensures td[u] >= td[o[finished]] {
      var i :| 0 <= i < |o| && o[i] == u;
    }
    FinishedLeadInto(g, td, s, dist, st, q, done, finished, D, P);
    UndiscoveredFar(g, s, td, D, P, td[o[finished]], t);
  }

  lemma FinishedLeadInto(g: Graph, td: seq<int>, s: int, dist: seq<int>, st: seq<int>, q: seq<int>,
                         done: seq<int>, finished: int, D: set<int>, P: set<int>)
    requires Closed(g) && |dist| == |g| == |td| && Counters(g, done)
    requires Ordered(td, s, dist, st, q) && Followed(g, dist, st, done, finished)
    requires D == (set x | x in st + q) && finished <= |st + q| && P == (set x | x in (st + q)[..finished])
    ensures forall u, k :: u in P && 0 <= u < |g| && 0 <= k < |g[u]| ==> g[u][k] in D
  {
    forall u, k | u in P && 0 <= u < |g| && 0 <= k < |g[u]| ensures g[u][k] in D {
      var i :| 0 <= i < finished && (st + q)[i] == u;
      assert st[i] == u;
      assert dist[g[u][k]] >= 0;
    }
  }

  /** All predecessors of the front of the queue have been followed. */
  lemma FrontPreds(g: Graph, s: int, td: seq<int>, dist: seq<int>, st: seq<int>, q: seq<int>,
                   done: seq<int>, u: int)
    requires Closed(g) && 0 <= s < |g| && Truth(g, s, td) && |dist| == |g| && Counters(g, done)
    requires Ordered(td, s, dist, st, q) && Followed(g, dist, st, done, |st|) && q != []
    requires OneFarther(td, u, q[0])
    ensures done[u] == |g[u]|
  {
    var o := st + q;
    assert o[|st|] == q[0];
    if u !in o {
      Undiscovered(g, s, td, dist, st, q, done, |st|, u);
    } else {
      var i :| 0 <= i < |o| && o[i] == u;
      assert i < |st|;
    }
  }

  lemma FrontSigma(g: Graph, s: int, td: seq<int>, f: Frontier, done: seq<int>)
    requires Invariant(g, s, td, SigmaOf(g, s), f, done, |f.st|) && Truth(g, s, td) && f.q != []
    ensures 0 <= f.q[0] < |g| && f.sigma[f.q[0]] as real == SigmaOf(g, s)(f.q[0])
  {
    var v := f.q[0];
    assert (f.st + f.q)[|f.st|] == v;
    forall u | OneFarther(td, u, v) ensures done[u] == |g[u]| {
      FrontPreds(g, s, td, f.dist, f.st, f.q, done, u);
    }
    PredsComplete(g, s, td, f.pred, done, v);
    SigmaComplete(g, s, v, f.pred[v]);
  }

  /** Once all predecessors of a node have been followed, its predecessor list is complete. */
  lemma PredsComplete(g: Graph, s: int, td: seq<int>, pred: seq<seq<int>>, done: seq<int>, v: int)
    requires Closed(g) && 0 <= s < |g| && Truth(g, s, td) && Counters(g, done) && |pred| == |g| && 0 <= v < |g|
    requires PredsListed(g, td, pred, done)
    requires forall u :: OneFarther(td, u, v) ==> done[u] == |g[u]|
    ensures AllPreds(g, s, v, pred[v])
  {
    forall u ensures Occurrences(pred[v], u) == if Precedes(g, s, u, v) then Channels(g, u, v) else 0 {
      assert Occurrences(pred[v], u) == PredCount(g, td, done, u, v);
      if 0 <= u < |g| {
        assert td[u] == Dist(g, s, u) && td[v] == Dist(g, s, v);
        assert OneFarther(td, u, v) ==> g[u][..done[u]] == g[u];
      }
    }
  }

  /** Moving the front of the queue onto the stack. */
  function Popped(f: Frontier): Frontier
    requires f.q != []
  {
    f.(st := f.st + [f.q[0]], q := f.q[1..])
  }

  lemma PopKeeps(g: Graph, s: int, td: seq<int>, sig: int -> real, f: Frontier, done: seq<int>)
    requires Invariant(g, s, td, sig, f, done, |f.st|) && f.q != []
    requires 0 <= f.q[0] < |g| && f.sigma[f.q[0]] as real == sig(f.q[0])
    ensures Following(g, s, td, sig, Popped(f), done, f.q[0])
    ensures done[f.q[0]] == 0 && |f.st| < |g|
  {
    FrontFresh(td, s, f.dist, f.st, f.q);
    PopOrdered(td, s, f.dist, f.st, f.q);
    PopFollowed(g, f.dist, f.st, done, f.q[0]);
    DistinctBounded(f.st + f.q, |g|);
  }

  lemma FrontFresh(td: seq<int>, s: int, dist: seq<int>, st: seq<int>, q: seq<int>)
    requires |dist| == |td| && Ordered(td, s, dist, st, q) && q != []
    ensures 0 <= q[0] < |td| && dist[q[0]] == td[q[0]] >= 0 && q[0] !in st
  {
    assert (st + q)[|st|] == q[0];
    forall i | 0 <= i < |st| ensures st[i] != q[0] {
      assert (st + q)[i] == st[i];
    }
  }

  lemma PopFollowed(g: Graph, dist: seq<int>, st: seq<int>, done: seq<int>, v: int)
    requires Closed(g) && |dist| == |g| && Counters(g, done) && Followed(g, dist, st, done, |st|)
    ensures Followed(g, dist, st + [v], done, |st|)
  {}

  lemma PopOrdered(td: seq<int>, s: int, dist: seq<int>, st: seq<int>, q: seq<int>)
    requires |dist| == |td| && Ordered(td, s, dist, st, q) && q != []
    ensures Ordered(td, s, dist, st + [q[0]], q[1..])
  {
    var o, k := st + q, |st|;
    assert (st + [q[0]]) + q[1..] == o;
    assert k > 0 ==> td[o[k - 1]] <= td[o[k]];
  }

  /** The state while the channels of v, the top of the stack, are being followed. */
  ghost predicate Following(g: Graph, s: int, td: seq<int>, sig: int -> real, f: Frontier,
                            done: seq<int>, v: int) {
    && f.st != [] && f.st[|f.st| - 1] == v && 0 <= v < |g| && v !in f.st[..|f.st| - 1]
    && Invariant(g, s, td, sig, f, done, |f.st| - 1)
    && f.dist[v] == td[v] >= 0
    && f.sigma[v] as real == sig(v)
  }

  /** Setting the distance of a newly found neighbour w of v and enqueueing it. */
  function Discovered(f: Frontier, v: int, w: int): Frontier
    requires 0 <= v < |f.dist| && 0 <= w < |f.dist|
  {
    if f.dist[w] < 0 then f.(dist := f.dist[w := f.dist[v] + 1], q := f.q + [w]) else f
  }

  /** Counting the shortest paths that reach w over this channel from v. */
  function Recorded(f: Frontier, v: int, w: int): Frontier
    requires 0 <= v < |f.dist| == |f.sigma| == |f.pred| && 0 <= w < |f.dist|
  {
    if f.dist[w] == f.dist[v] + 1
    then f.(sigma := f.sigma[w := f.sigma[w] + f.sigma[v]], pred := f.pred[w := f.pred[w] + [v]])
    else f
  }

  /** A neighbour that has not been seen is exactly one hop farther away. */
  lemma NewNeighbour(g: Graph, s: int, td: seq<int>, dist: seq<int>, st: seq<int>, q: seq<int>,
                     done: seq<int>, v: int, w: int)
    requires Closed(g) && 0 <= s < |g| && Truth(g, s, td) && |dist| == |g| && Counters(g, done)
    requires Ordered(td, s, dist, st, q) && st != [] && Followed(g, dist, st, done, |st| - 1)
    requires st[|st| - 1] == v && 0 <= v < |g| && td[v] >= 0
    requires Channels(g, v, w) > 0 && 0 <= w < |g| && dist[w] < 0
    ensures td[w] == td[v] + 1 && w !in st + q
  {
    NeighbourBound(g, s, td, v, w);
    assert (st + q)[|st| - 1] == v;
    Undiscovered(g, s, td, dist, st, q, done, |st| - 1, w);
  }

  lemma NeighbourBound(g: Graph, s: int, td: seq<int>, v: int, w: int)
    requires Truth(g, s, td) && 0 <= v < |g| && 0 <= w < |g| && td[v] >= 0 && Channels(g, v, w) > 0
    ensures 0 <= td[w] <= td[v] + 1
  {
    AdjacentBound(g, s, v, w);
  }

  lemma PushOrdered(td: seq<int>, s: int, dist: seq<int>, st: seq<int>, q: seq<int>, w: int)
    requires |dist| == |td| && Ordered(td, s, dist, st, q) && st != []
    requires 0 <= w < |td| && w !in st + q && 0 <= st[|st| - 1] < |td|
    requires 0 <= td[w] == td[st[|st| - 1]] + 1
    ensures Ordered(td, s, dist[w := td[w]], st, q + [w])
  {
    var o, o' := st + q, st + (q + [w]);
    assert o' == o + [w];
    forall i | 0 <= i < |o| ensures td[o[i]] <= td[w] {
      assert o[|st| - 1] == st[|st| - 1];
      assert i >= |st| ==> o[i] == q[i - |st|];
    }
  }

  lemma PushFollowed(g: Graph, dist: seq<int>, st: seq<int>, done: seq<int>, finished: int, w: int, d: int)
    requires Closed(g) && |dist| == |g| && Counters(g, done) && Followed(g, dist, st, done, finished)
    requires 0 <= w < |g| && d >= 0
    ensures Followed(g, dist[w := d], st, done, finished)
  {}

  lemma DiscoverKeeps(g: Graph, s: int, td: seq<int>, sig: int -> real, f: Frontier, done: seq<int>, v: int, w: int,
                      f': Frontier)
    requires Following(g, s, td, sig, f, done, v) && Truth(g, s, td) && Channels(g, v, w) > 0 && 0 <= w < |g|
    requires f' == Discovered(f, v, w)
    ensures Following(g, s, td, sig, f', done, v)
    ensures f'.dist[w] == td[w] >= 0
  {
    if f.dist[w] < 0 {
      NeighbourFar(g, s, td, sig, f, done, v, w);
      PushKeeps(g, s, td, sig, f, done, v, w, f');
    } else {
      assert f' == f;
    }
  }

  lemma NeighbourFar(g: Graph, s: int, td: seq<int>, sig: int -> real, f: Frontier, done: seq<int>, v: int, w: int)
    requires Following(g, s, td, sig, f, done, v) && Truth(g, s, td) && Channels(g, v, w) > 0 && 0 <= w < |g|
    requires f.dist[w] < 0
    ensures td[w] == td[v] + 1 && w !in f.st + f.q
  {
    NewNeighbour(g, s, td, f.dist, f.st, f.q, done, v, w);
  }

  lemma PushKeeps(g: Graph, s: int, td: seq<int>, sig: int -> real, f: Frontier, done: seq<int>, v: int, w: int,
                  f': Frontier)
    requires Following(g, s, td, sig, f, done, v) && 0 <= w < |g| && f.dist[w] < 0
    requires td[w] == td[v] + 1 && w !in f.st + f.q && f' == Discovered(f, v, w)
    ensures Following(g, s, td, sig, f', done, v) && f'.dist[w] == td[w]
  {
    PushOrdered(td, s, f.dist, f.st, f.q, w);
    PushFollowed(g, f.dist, f.st, done, |f.st| - 1, w, td[w]);
    assert (f.st + f.q)[|f.st| - 1] == v;
  }

  lemma RecordKeeps(g: Graph, s: int, td: seq<int>, sig: int -> real, f: Frontier, done: seq<int>, v: int)
    requires Following(g, s, td, sig, f, done, v) && done[v] < |g[v]|
    requires f.dist[g[v][done[v]]] == td[g[v][done[v]]] >= 0
    ensures Following(g, s, td, sig, Recorded(f, v, g[v][done[v]]), done[v := done[v] + 1], v)
  {
    var w := g[v][done[v]];
    RecordFollowed(g, f.dist, f.st, done, v);
    RecordPreds(g, td, f.pred, Recorded(f, v, w).pred, done, v);
    if OneFarther(td, v, w) {
      RecordSigma(s, sig, f.sigma, f.pred, v, w);
    }
  }

  lemma RecordFollowed(g: Graph, dist: seq<int>, st: seq<int>, done: seq<int>, v: int)
    requires Closed(g) && |dist| == |g| && Counters(g, done) && st != []
    requires Followed(g, dist, st, done, |st| - 1) && st[|st| - 1] == v && v !in st[..|st| - 1]
    requires 0 <= v < |g| && done[v] < |g[v]| && dist[g[v][done[v]]] >= 0
    ensures Counters(g, done[v := done[v] + 1])
    ensures Followed(g, dist, st, done[v := done[v] + 1], |st| - 1)
  {
    forall i | 0 <= i < |st| - 1 ensures st[i] != v {
      assert st[i] == st[..|st| - 1][i];
    }
  }

  lemma RecordPreds(g: Graph, td: seq<int>, pred: seq<seq<int>>, pred': seq<seq<int>>, done: seq<int>, v: int)
    requires Closed(g) && |pred| == |g| == |td| && Counters(g, done) && PredsListed(g, td, pred, done)
    requires 0 <= v < |g| && done[v] < |g[v]| && Counters(g, done[v := done[v] + 1])
    requires pred' == if OneFarther(td, v, g[v][done[v]])
                      then pred[g[v][done[v]] := pred[g[v][done[v]]] + [v]] else pred
    ensures PredsListed(g, td, pred', done[v := done[v] + 1])
  {
    var x, done' := g[v][done[v]], done[v := done[v] + 1];
    forall w, u | 0 <= w < |g| ensures Occurrences(pred'[w], u) == PredCount(g, td, done', u, w) {
      assert g[v][..done'[v]] == g[v][..done[v]] + [x];
      assert Occurrences(pred[w], u) == PredCount(g, td, done, u, w);
    }
  }

  lemma RecordSigma(s: int, sig: int -> real, sigma: seq<int>, pred: seq<seq<int>>, v: int, w: int)
    requires |sigma| == |pred| && SigmaCounts(s, sig, sigma, pred)
    requires 0 <= v < |pred| && 0 <= w < |pred| && sigma[v] as real == sig(v)
    ensures SigmaCounts(s, sig, sigma[w := sigma[w] + sigma[v]], pred[w := pred[w] + [v]])
  {
    var p := pred[w] + [v];
    assert p[..|p| - 1] == pred[w];
  }

  lemma FinishKeeps(g: Graph, s: int, td: seq<int>, sig: int -> real, f: Frontier, done: seq<int>, v: int)
    requires Following(g, s, td, sig, f, done, v) && done[v] == |g[v]|
    ensures Invariant(g, s, td, sig, f, done, |f.st|)
  {}

  /** With an empty queue the invariant is the result. */
  lemma QueueEmpty(g: Graph, s: int, td: seq<int>, f: Frontier, done: seq<int>)
    requires Invariant(g, s, td, SigmaOf(g, s), f, done, |f.st|) && Truth(g, s, td) && f.q == []
    ensures Searched(g, s, f)
  {
    AllReached(g, s, td, f.dist, f.st, done);
    forall t | 0 <= t < |g| ensures AllPreds(g, s, t, f.pred[t]) && f.sigma[t] == Sigma(g, s, t) {
      PredsComplete(g, s, td, f.pred, done, t);
      SigmaComplete(g, s, t, f.pred[t]);
    }
    assert f.st + f.q == f.st;
  }

  lemma AllReached(g: Graph, s: int, td: seq<int>, dist: seq<int>, st: seq<int>, done: seq<int>)
    requires Closed(g) && 0 <= s < |g| && Truth(g, s, td) && |dist| == |g| && Counters(g, done)
    requires Ordered(td, s, dist, st, []) && Followed(g, dist, st, done, |st|)
    ensures forall t :: 0 <= t < |g| ==> dist[t] == td[t] && (t in st <==> td[t] >= 0)
    ensures forall u, w :: OneFarther(td, u, w) ==> done[u] == |g[u]|
  {
    var o := st + [];
    assert o == st;
    var D := set x | x in o;
    assert o[..|st|] == o;
    FinishedLeadInto(g, td, s, dist, st, [], done, |st|, D, D);
    forall t | 0 <= t < |g| ensures dist[t] == td[t] && (t in st <==> td[t] >= 0) {
      if t !in st && td[t] >= 0 {
        UndiscoveredFar(g, s, td, D, D, td[t], t);
      }
    }
  }

  /** The body of the inner loop: following one channel from v to w. */
  method Follow(dist: array<int>, sigma: array<int>, pred: array<seq<int>>, q: seq<int>, v: int, w: int,
                ghost st: seq<int>)
    returns (q': seq<int>)
    requires dist != sigma && 0 <= v < dist.Length == sigma.Length == pred.Length && 0 <= w < dist.Length
    modifies dist, sigma, pred
    ensures Frontier(dist[..], sigma[..], pred[..], st, q')
         == Recorded(Discovered(old(Frontier(dist[..], sigma[..], pred[..], st, q)), v, w), v, w)
  {
    q' := q;
    if dist[w] < 0 {
      dist[w] := dist[v] + 1;
      q' := q + [w];
    }
    if dist[w] == dist[v] + 1 {
      sigma[w] := sigma[w] + sigma[v];
      pred[w] := pred[w] + [v];
    }
  }

  lemma FollowKeeps(g: Graph, s: int, td: seq<int>, sig: int -> real, f: Frontier, f1: Frontier, f2: Frontier,
                    done: seq<int>, v: int, w: int)
    requires Following(g, s, td, sig, f, done, v) && Truth(g, s, td) && done[v] < |g[v]| && g[v][done[v]] == w
    requires f1 == Discovered(f, v, w) && f2 == Recorded(f1, v, w)
    ensures Following(g, s, td, sig, f2, done[v := done[v] + 1], v)
  {
    assert Channels(g, v, w) > 0 by { assert g[v][done[v]] in multiset(g[v]); }
    DiscoverKeeps(g, s, td, sig, f, done, v, w, Discovered(f, v, w));
    RecordKeeps(g, s, td, sig, f1, done, v);
  }

  /** Following one channel, with the invariant. */
  method FollowNext(g: Graph, ghost s: int, ghost td: seq<int>, ghost sig: int -> real, ghost f: Frontier,
                    dist: array<int>, sigma: array<int>, pred: array<seq<int>>, ghost st: seq<int>,
                    q: seq<int>, v: int, w: int, ghost done: seq<int>)
    returns (q': seq<int>, ghost f': Frontier)
    requires dist != sigma && dist.Length == sigma.Length == pred.Length == |g|
    requires f == Frontier(dist[..], sigma[..], pred[..], st, q) && Truth(g, s, td)
    requires Following(g, s, td, sig, f, done, v) && done[v] < |g[v]| && g[v][done[v]] == w
    modifies dist, sigma, pred
    ensures f' == Frontier(dist[..], sigma[..], pred[..], st, q')
    ensures Following(g, s, td, sig, f', done[v := done[v] + 1], v)
  {
    ghost var f1 := Discovered(f, v, w);
    f' := Recorded(f1, v, w);
    FollowKeeps(g, s, td, sig, f, f1, f', done, v, w);
    q' := Follow(dist, sigma, pred, q, v, w, st);
  }

  /** The inner loop: following every channel of v. */
  method FollowAll(g: Graph, ghost s: int, ghost td: seq<int>, ghost sig: int -> real, ghost f: Frontier,
                   dist: array<int>, sigma: array<int>, pred: array<seq<int>>, ghost st: seq<int>,
                   q: seq<int>, v: int, ghost done: seq<int>)
    returns (q': seq<int>, ghost f': Frontier, ghost done': seq<int>)
    requires dist != sigma && dist.Length == sigma.Length == pred.Length == |g|
    requires f == Frontier(dist[..], sigma[..], pred[..], st, q)
    requires Following(g, s, td, sig, f, done, v) && Truth(g, s, td) && done[v] == 0
    modifies dist, sigma, pred
    ensures f' == Frontier(dist[..], sigma[..], pred[..], st, q')
    ensures Invariant(g, s, td, sig, f', done', |st|)
  {
    q', f', done' := q, f, done;
    for j := 0 to |g[v]|
      invariant f' == Frontier(dist[..], sigma[..], pred[..], st, q')
      invariant Following(g, s, td, sig, f', done', v)
      invariant done'[v] == j
    {
      q', f' := FollowNext(g, s, td, sig, f', dist, sigma, pred, st, q', v, g[v][j], done');
      done' := done'[v := done'[v] + 1];
    }
    FinishKeeps(g, s, td, sig, f', done', v);
  }

  /** The search of betweennessCentrality: distances, numbers of shortest paths, predecessor lists
      and the stack of reached nodes. */
  method Explore(g: Graph, s: int)
    returns (dist: array<int>, sigma: array<int>, pred: array<seq<int>>, st: seq<int>)
    requires Closed(g) && 0 <= s < |g|
    ensures fresh(dist) && fresh(sigma) && fresh(pred)
    ensures Searched(g, s, Frontier(dist[..], sigma[..], pred[..], st, []))
  {
    ghost var td, sig := TrueDistances(g, s), SigmaOf(g, s);
    pred := new seq<int>[|g|](_ => []);
    sigma := new int[|g|](_ => 0);
    sigma[s] := 1;
    dist := new int[|g|](_ => -1);
    dist[s] := 0;
    st := [];
    var q := [s];
    ghost var done := seq(|g|, i => 0);
    ghost var f := Start(g, s);
    StartKeeps(g, s, td, sig);
    while q != []
      invariant fresh(dist) && fresh(sigma) && fresh(pred) && dist != sigma
      invariant dist.Length == sigma.Length == pred.Length == |g|
      invariant f == Frontier(dist[..], sigma[..], pred[..], st, q)
      invariant Invariant(g, s, td, sig, f, done, |st|)
      decreases |g| - |st|
    {
      FrontSigma(g, s, td, f, done);
      PopKeeps(g, s, td, sig, f, done);
      f := Popped(f);
      var v := q[0];
      q := q[1..];
      st := st + [v];
      q, f, done := FollowAll(g, s, td, sig, f, dist, sigma, pred, st, q, v, done);
    }
    QueueEmpty(g, s, td, f, done);
  }
}
