/** The weighted choice of autopilot/choice.go. */
module Choice {
  import opened Bytes

  datatype Pick = Index(i: nat) | NoPositive | Unable

  /** w[0] + ... + w[n-1]. */
  ghost function Prefix(w: seq<real>, n: nat): real
    requires n <= |w|
  {
    if n == 0 then 0.0 else Prefix(w, n - 1) + w[n - 1]
  }

  /** The sum of the weights. */
  ghost function Total(w: seq<real>): real {
    Prefix(w, |w|)
  }

  /** A draw from the unit interval, scaled. */
  function Scaled(draw: real, sum: real): real {
    draw * sum
  }

  ghost predicate NonNegative(w: seq<real>) {
    forall i :: 0 <= i < |w| ==> w[i] >= 0.0
  }

  /** i is the index whose interval of the running sums is hit by r. */
  ghost predicate Hit(w: seq<real>, r: real, i: nat) {
    i < |w| && r <= Prefix(w, i + 1) && forall n :: 0 < n <= i ==> Prefix(w, n) < r
  }

  /** No interval is hit by r. */
  ghost predicate Missed(w: seq<real>, r: real) {
    forall n :: 0 < n <= |w| ==> Prefix(w, n) < r
  }

  lemma {:induction false} PrefixPositive(w: seq<real>, n: nat)
    requires NonNegative(w) && n <= |w|
    ensures Prefix(w, n) >= 0.0
    ensures Prefix(w, n) > 0.0 <==> exists i :: 0 <= i < n && w[i] > 0.0
  {
    if n > 0 {
      PrefixPositive(w, n - 1);
    }
  }

  /** weightedChoice; draw is the number from rand.Float64. Weights may be negative. The error at the end cannot
      happen, over the reals. */
  method WeightedChoice(w: seq<real>, draw: real) returns (p: Pick)
    requires 0.0 <= draw < 1.0
    ensures p == NoPositive <==> Total(w) <= 0.0
    ensures p.Index? ==> Hit(w, Scaled(draw, Total(w)), p.i)
    ensures p != Unable
  {
    var sum := 0.0;
    for i := 0 to |w|
      invariant sum == Prefix(w, i)
    {
      sum := sum + w[i];
    }
    if sum <= 0.0 {
      return NoPositive;
    }
    var start := Scaled(draw, sum);
    var r := start;
    for i := 0 to |w|
      invariant r == start - Prefix(w, i)
      invariant forall n :: 0 < n <= i ==> Prefix(w, n) < start
    {
      r := r - w[i];
      if r <= 0.0 {
        return Index(i);
      }
    }
    AlwaysHits(w, draw);
    p := Unable;
  }

  /** A draw always hits an index when the sum is positive. */
  lemma AlwaysHits(w: seq<real>, draw: real)
    requires 0.0 <= draw < 1.0 && Total(w) > 0.0
    ensures !Missed(w, Scaled(draw, Total(w)))
  {
    Smaller(draw, Total(w));
    HitsBelow(w, Scaled(draw, Total(w)));
  }

  lemma HitsBelow(w: seq<real>, r: real)
    requires |w| > 0 && r <= Total(w)
    ensures !Missed(w, r)
  {
    assert !(Prefix(w, |w|) < r);
  }

  lemma Smaller(draw: real, sum: real)
    requires 0.0 <= draw < 1.0 && sum > 0.0
    ensures 0.0 <= Scaled(draw, sum) < sum
    ensures Scaled(draw, sum) == 0.0 <==> draw == 0.0
  {}

  /** The chosen weight is positive, except when the draw is exactly 0 and the first weight is 0. */
  lemma ChosenPositive(w: seq<real>, draw: real, i: nat)
    requires NonNegative(w) && 0.0 <= draw < 1.0 && Total(w) > 0.0 && Hit(w, Scaled(draw, Total(w)), i)
    ensures w[i] > 0.0 <==> !(draw == 0.0 && w[0] == 0.0)
  {
    var r := Scaled(draw, Total(w));
    Smaller(draw, Total(w));
    assert Prefix(w, 1) == w[0];
    PrefixPositive(w, i);
  }

  // ----- chooseN

  /** The number of positive scores. */
  ghost function Positives(scores: seq<real>): nat {
    if scores == [] then 0 else Positives(scores[..|scores| - 1]) + if scores[|scores| - 1] > 0.0 then 1 else 0
  }

  lemma {:induction false} ZeroedCount(scores: seq<real>, i: nat)
    requires i < |scores| && scores[i] > 0.0
    ensures Positives(scores[i := 0.0]) == Positives(scores) - 1
  {
    var n := |scores| - 1;
    if i == n {
      assert scores[i := 0.0][..n] == scores[..n];
    } else {
      ZeroedCount(scores[..n], i);
      assert scores[i := 0.0][..n] == scores[..n][i := 0.0];
    }
  }

  /** The nodes of a score map in some order, with their scores. */
  ghost predicate Enumerates(s: map<NodeID, real>, ids: seq<NodeID>, scores: seq<real>) {
    && |ids| == |scores|
    && (forall i, j :: 0 <= i < j < |ids| ==> ids[i] != ids[j])
    && (forall k :: k in s <==> k in ids)
    && (forall i :: 0 <= i < |ids| ==> scores[i] == s[ids[i]])
  }

  /** The loop that turns the map into two slices, in the arbitrary order of a map iteration. */
  method Enumerate(s: map<NodeID, real>) returns (ids: seq<NodeID>, scores: seq<real>)
    ensures Enumerates(s, ids, scores)
  {
    ids, scores := [], [];
    var todo := s.Keys;
    while todo != {}
      invariant |ids| == |scores| && todo <= s.Keys
      invariant forall i, j :: 0 <= i < j < |ids| ==> ids[i] != ids[j]
      invariant forall k :: k in ids <==> k in s && k !in todo
      invariant forall i :: 0 <= i < |ids| ==> ids[i] in s && scores[i] == s[ids[i]]
    {
      var k :| k in todo;
      ids, scores := ids + [k], scores + [s[k]];
      todo := todo - {k};
    }
    forall i | 0 <= i < |ids| ensures ids[i] in ids {}
  }

  /** The scores with those of the chosen nodes set to zero. */
  ghost predicate Zeroed(s: map<NodeID, real>, ids: seq<NodeID>, scores: seq<real>, chosen: map<NodeID, real>) {
    && |ids| == |scores|
    && (forall i :: 0 <= i < |ids| ==> ids[i] in s && scores[i] == if ids[i] in chosen then 0.0 else s[ids[i]])
    && (forall k :: k in chosen ==> k in s && chosen[k] == s[k])
  }

  /** The only node that can be chosen without a positive score is the first. */
  ghost predicate FirstAtMost(s: map<NodeID, real>, ids: seq<NodeID>, chosen: map<NodeID, real>) {
    forall k :: k in chosen ==> k in s && (s[k] > 0.0 || (ids != [] && k == ids[0]))
  }

  ghost predicate AllPositive(s: map<NodeID, real>, chosen: map<NodeID, real>) {
    forall k :: k in chosen ==> k in s && s[k] > 0.0
  }

  ghost predicate SomePositive(s: map<NodeID, real>) {
    exists k :: k in s && s[k] > 0.0
  }

  /** What one choice can be: a positive score, or the first one on a draw of exactly 0. */
  lemma ChoiceIs(scores: seq<real>, draw: real, i: nat)
    requires NonNegative(scores) && 0.0 <= draw < 1.0 && Total(scores) > 0.0 && Hit(scores, Scaled(draw, Total(scores)), i)
    ensures scores[i] > 0.0 || (draw == 0.0 && i == 0)
    ensures exists j :: 0 <= j < |scores| && scores[j] > 0.0
  {
    ChosenPositive(scores, draw, i);
    PrefixPositive(scores, |scores|);
    if scores[i] == 0.0 {
      Smaller(draw, Total(scores));
      assert Prefix(scores, 1) == scores[0];
    }
  }

  /** chooseN for scores that are not negative; `draws` are the numbers from rand.Float64 in turn, of which
      later(i) is one from i on that is not exactly 0. When none is 0, the chosen nodes all have positive score;
      otherwise there may be one, the first in the order of the iteration, that has not. Fewer than n nodes are
      chosen only when no positive score is left. */
  method ChooseN(n: nat, s: map<NodeID, real>, draws: nat -> real, ghost later: nat -> nat)
    returns (chosen: map<NodeID, real>)
    requires forall k :: k in s ==> s[k] >= 0.0
    requires forall i :: 0.0 <= draws(i) < 1.0
    requires forall i :: later(i) >= i && draws(later(i)) > 0.0
    ensures forall k :: k in chosen ==> k in s && chosen[k] == s[k]
    ensures (forall i :: draws(i) > 0.0) ==> AllPositive(s, chosen)
    ensures forall k, l :: k in chosen && l in chosen && s[k] == s[l] == 0.0 ==> k == l
    ensures |chosen| <= n
    ensures |chosen| < n ==> forall k :: k in s && s[k] > 0.0 ==> k in chosen
    ensures chosen != map[] ==> SomePositive(s)
  {
    var ids, scores := Enumerate(s);
    chosen := map[];
    var round := 0;
    ghost var next, zeros := later(0), exists i :: draws(i) == 0.0;
    while |chosen| < n && |s| > 0
      invariant |chosen| <= n && Choosing(s, ids, scores, chosen, zeros)
      invariant round <= next && draws(next) > 0.0
      decreases Positives(scores), next - round
    {
      var choice := WeightedChoice(scores, draws(round));
      if choice == NoPositive {
        NoneLeft(s, ids, scores, chosen);
        OneZero(s, ids, chosen);
        return;
      }
      ChoosingNext(s, ids, scores, chosen, zeros, draws(round), choice.i);
      next := NextDraw(draws, later, round, next, scores[choice.i] > 0.0);
      chosen := chosen[ids[choice.i] := s[ids[choice.i]]];
      scores := scores[choice.i := 0.0];
      round := round + 1;
    }
    if |s| == 0 { assert s == map[]; }
    OneZero(s, ids, chosen);
  }

  /** A draw to come that is not 0: the old one is still to come when this draw was 0. */
  lemma NextDraw(draws: nat -> real, later: nat -> nat, round: nat, next: nat, renew: bool) returns (next': nat)
    requires later(round + 1) >= round + 1 && draws(later(round + 1)) > 0.0
    requires round <= next && draws(next) > 0.0 && (!renew ==> draws(round) == 0.0)
    ensures round + 1 <= next' && draws(next') > 0.0 && (!renew ==> next' == next)
  {
    next' := if renew then later(round + 1) else next;
  }

  /** The state of the loop; zeros says whether some draw is exactly 0. */
  ghost predicate Choosing(s: map<NodeID, real>, ids: seq<NodeID>, scores: seq<real>, chosen: map<NodeID, real>,
                           zeros: bool) {
    && NonNegative(scores) && Zeroed(s, ids, scores, chosen)
    && (forall k :: k in s <==> k in ids)
    && (forall i, j :: 0 <= i < j < |ids| ==> ids[i] != ids[j])
    && FirstAtMost(s, ids, chosen) && (chosen != map[] ==> SomePositive(s))
    && (!zeros ==> AllPositive(s, chosen))
  }

  lemma ChoosingNext(s: map<NodeID, real>, ids: seq<NodeID>, scores: seq<real>, chosen: map<NodeID, real>, zeros: bool,
                     draw: real, i: nat)
    requires Choosing(s, ids, scores, chosen, zeros) && 0.0 <= draw < 1.0 && (draw == 0.0 ==> zeros)
    requires Total(scores) > 0.0 && Hit(scores, Scaled(draw, Total(scores)), i)
    ensures Choosing(s, ids, scores[i := 0.0], chosen[ids[i] := s[ids[i]]], zeros)
    ensures |chosen[ids[i] := s[ids[i]]]| <= |chosen| + 1
    ensures if scores[i] > 0.0 then Positives(scores[i := 0.0]) < Positives(scores)
            else draw == 0.0 && scores[i := 0.0] == scores
  {
    ChoiceIs(scores, draw, i);
    ChoiceKeeps(s, ids, scores, chosen, i);
  }

  lemma OneZero(s: map<NodeID, real>, ids: seq<NodeID>, chosen: map<NodeID, real>)
    requires FirstAtMost(s, ids, chosen)
    ensures forall k, l :: k in chosen && l in chosen && s[k] == s[l] == 0.0 ==> k == l
  {
  }

  lemma OneMoreChosen(chosen: map<NodeID, real>, k: NodeID, v: real)
    ensures |chosen[k := v]| <= |chosen| + 1
  {
    var more := chosen[k := v];
    if k in chosen { assert more.Keys == chosen.Keys; } else { assert more.Keys == chosen.Keys + {k}; }
    assert |more| == |more.Keys| && |chosen| == |chosen.Keys|;
  }

  lemma ChoiceKeeps(s: map<NodeID, real>, ids: seq<NodeID>, scores: seq<real>, chosen: map<NodeID, real>, i: nat)
    requires NonNegative(scores) && Zeroed(s, ids, scores, chosen) && i < |scores|
    requires exists j :: 0 <= j < |scores| && scores[j] > 0.0
    requires forall i, j :: 0 <= i < j < |ids| ==> ids[i] != ids[j]
    ensures NonNegative(scores[i := 0.0]) && Zeroed(s, ids, scores[i := 0.0], chosen[ids[i] := s[ids[i]]])
    ensures |chosen[ids[i] := s[ids[i]]]| <= |chosen| + 1 && SomePositive(s)
    ensures scores[i] > 0.0 ==> s[ids[i]] > 0.0 && Positives(scores[i := 0.0]) < Positives(scores)
    ensures scores[i] == 0.0 ==> scores[i := 0.0] == scores
  {
    if scores[i] > 0.0 { ZeroedCount(scores, i); }
    OneMoreChosen(chosen, ids[i], s[ids[i]]);
    var j :| 0 <= j < |scores| && scores[j] > 0.0;
    assert s[ids[j]] > 0.0;
  }

  /** A draw of exactly 0 while the first score is 0 chooses the first node, and, once it is chosen, changes
      nothing: a stream of such draws never ends the loop. */
  lemma ZeroDrawStalls(s: map<NodeID, real>, ids: seq<NodeID>, scores: seq<real>, chosen: map<NodeID, real>, i: nat)
    requires NonNegative(scores) && Zeroed(s, ids, scores, chosen) && Total(scores) > 0.0
    requires |scores| > 0 && scores[0] == 0.0 && Hit(scores, Scaled(0.0, Total(scores)), i)
    ensures i == 0 && scores[i := 0.0] == scores
    ensures ids[0] in chosen ==> chosen[ids[i] := s[ids[i]]] == chosen
  {
    ChosenPositive(scores, 0.0, i);
    ChoiceIs(scores, 0.0, i);
  }

  lemma NoneLeft(s: map<NodeID, real>, ids: seq<NodeID>, scores: seq<real>, chosen: map<NodeID, real>)
    requires NonNegative(scores) && Zeroed(s, ids, scores, chosen) && Total(scores) <= 0.0
    requires forall k :: k in s <==> k in ids
    ensures forall k :: k in s && s[k] > 0.0 ==> k in chosen
  {
    PrefixPositive(scores, |scores|);
    forall k | k in s && s[k] > 0.0 ensures k in chosen {
      var i :| 0 <= i < |ids| && ids[i] == k;
      assert scores[i] == 0.0;
    }
  }

  /** The number of nodes chosen, from the contract of ChooseN, when no draw is exactly 0. */
  lemma ChosenCount(n: nat, s: map<NodeID, real>, chosen: map<NodeID, real>)
    requires AllPositive(s, chosen)
    requires |chosen| <= n && (|chosen| < n ==> forall k :: k in s && s[k] > 0.0 ==> k in chosen)
    ensures var positive := set k | k in s && s[k] > 0.0; |chosen| == if n < |positive| then n else |positive|
  {
    var positive := set k | k in s && s[k] > 0.0;
    assert chosen.Keys <= positive;
    SubsetSize(chosen.Keys, positive);
    if |chosen| < n { assert chosen.Keys == positive; }
  }

  lemma {:induction false} SubsetSize<T>(a: set<T>, b: set<T>)
    requires a <= b
    ensures |a| <= |b|
  {
    if a != {} {
      var x :| x in a;
      SubsetSize(a - {x}, b - {x});
    }
  }
}
