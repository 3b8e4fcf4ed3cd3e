/** The fund allocation over runs of the agent. Each round stays within it, but the amounts that directives carry
    are not counted while they are connecting. Total funds are constant: opening and closing channels moves
    them between the wallet and the channels. */
module AgentFunds {
  import opened Budget

  /** target is the whole part of allocation times the total funds. */
  datatype Limits = Limits(h: Constraints, target: int, total: int)

  ghost predicate Sensible(l: Limits) {
    1 <= l.h.minChanSize && 0 <= l.target <= l.total
  }

  /** The limits that constraints and funds give. */
  function LimitsOf(h: Constraints, total: nat): Limits {
    Limits(h, (h.allocation * total as real).Floor, total)
  }

  /** Staying within the target is staying within the allocation. */
  lemma TargetIsAllocation(h: Constraints, total: nat, amount: int)
    requires 0.0 <= h.allocation <= 1.0 && 1 <= h.minChanSize
    ensures Sensible(LimitsOf(h, total))
    ensures amount <= LimitsOf(h, total).target <==> amount as real <= h.allocation * total as real
  {
    var x := h.allocation * total as real;
    Share(h.allocation, total as real, x);
    FloorBound(x, amount);
    FloorBound(x, 0);
    FloorBound(x, total + 1);
  }

  lemma Share(part: real, whole: real, x: real)
    requires 0.0 <= part <= 1.0 && 0.0 <= whole && x == part * whole
    ensures 0.0 <= x <= whole
  {
  }

  lemma FloorBound(x: real, c: int)
    ensures c <= x.Floor <==> c as real <= x
  {
  }

  /** The balances in channels and pending opens: `base` in those the agent started with, `own` those it opened.
      `connecting` are the amounts of directives on their way to a pending open. */
  datatype Ledger = Ledger(base: int, own: seq<int>, connecting: seq<int>)

  datatype Move =
    | Round(amounts: seq<int>)
    | Opened(i: nat)
    | Dropped(i: nat)
    | ClosedOwn(i: nat)
    | ClosedBase(amount: nat)

  ghost function InChannels(w: Ledger): int { w.base + Sum(w.own) }

  function Without(s: seq<int>, i: nat): seq<int>
    requires i < |s|
  {
    s[..i] + s[i + 1..]
  }

  /** What the directives of one round can be, for the funds that ChannelBudget makes available. */
  ghost predicate Planned(h: Constraints, amounts: seq<int>, available: int) {
    && amounts != [] && Sum(amounts) <= available
    && (forall i :: 0 <= i < |amounts| ==> h.minChanSize <= amounts[i] <= h.maxChanSize)
    && (forall i :: 0 <= i < |amounts| - 1 ==> amounts[i] == h.maxChanSize)
    && (amounts[|amounts| - 1] < h.maxChanSize ==> Sum(amounts) == available)
  }

  /** The directives that BuildDirectives gives are of this kind. */
  lemma DirectivesPlanned(h: Constraints, ds: seq<Directive>, funds: int)
    requires ds != [] && WithinFunds(h, ds, funds) && AllButLastFull(h, ds)
    requires ds[|ds| - 1].amount < h.maxChanSize ==> Sum(Amounts(ds)) == funds
    ensures Planned(h, Amounts(ds), funds)
  {
  }

  /** A channel can be opened only when the wallet can pay for it. */
  ghost predicate Enabled(l: Limits, w: Ledger, m: Move) {
    match m
    case Round(amounts) => Planned(l.h, amounts, l.target - InChannels(w))
    case Opened(i) => i < |w.connecting| && InChannels(w) + w.connecting[i] <= l.total
    case Dropped(i) => i < |w.connecting|
    case ClosedOwn(i) => i < |w.own|
    case ClosedBase(amount) => amount <= w.base
  }

  ghost function Step(l: Limits, w: Ledger, m: Move): Ledger {
    if !Enabled(l, w, m) then w else
    match m
    case Round(amounts) => w.(connecting := w.connecting + amounts)
    case Opened(i) => w.(own := w.own + [w.connecting[i]], connecting := Without(w.connecting, i))
    case Dropped(i) => w.(connecting := Without(w.connecting, i))
    case ClosedOwn(i) => w.(own := Without(w.own, i))
    case ClosedBase(amount) => w.(base := w.base - amount)
  }

  ghost function Run(l: Limits, w: Ledger, ms: seq<Move>): Ledger
    decreases |ms|
  {
    if ms == [] then w else Step(l, Run(l, w, ms[..|ms| - 1]), ms[|ms| - 1])
  }

  // ----- sums

  lemma {:induction false} SumConcat(a: seq<int>, b: seq<int>)
    ensures Sum(a + b) == Sum(a) + Sum(b)
    decreases |b|
  {
    if b == [] {
      assert a + b == a;
    } else {
      var n := |b| - 1;
      SumConcat(a, b[..n]);
      assert (a + b)[..|a| + n] == a + b[..n];
    }
  }

  lemma SumWithout(s: seq<int>, i: nat)
    requires i < |s|
    ensures Sum(Without(s, i)) == Sum(s) - s[i]
  {
    var before, x, after := Split(s, i);
    SumMiddle(before, x, after);
    SumConcat(before, after);
  }

  lemma Split(s: seq<int>, i: nat) returns (before: seq<int>, x: int, after: seq<int>)
    requires i < |s|
    ensures s == before + [x] + after && x == s[i] && Without(s, i) == before + after
  {
    before, x, after := s[..i], s[i], s[i + 1..];
  }

  lemma SumMiddle(a: seq<int>, x: int, b: seq<int>)
    ensures Sum(a + [x] + b) == Sum(a) + x + Sum(b)
  {
    SumConcat(a + [x], b);
    SumAppend(a, x);
  }

  lemma {:induction false} PartOfSum(s: seq<int>, i: nat)
    requires i < |s| && forall j :: 0 <= j < |s| ==> s[j] >= 0
    ensures s[i] <= Sum(s)
  {
    var n := |s| - 1;
    if i == n { SumNonNegative(s[..n]); } else { PartOfSum(s[..n], i); }
  }

  // ----- what every run keeps

  /** Every amount is admissible, and would fit the allocation if it were the only one. */
  ghost predicate Fits(l: Limits, base: int, amounts: seq<int>) {
    forall i :: 0 <= i < |amounts| ==>
      l.h.minChanSize <= amounts[i] <= l.h.maxChanSize && base + amounts[i] <= l.target
  }

  ghost predicate Sound(l: Limits, w: Ledger) {
    0 <= w.base <= l.target && Fits(l, w.base, w.own) && Fits(l, w.base, w.connecting) && InChannels(w) <= l.total
  }

  lemma WithoutFits(l: Limits, base: int, s: seq<int>, i: nat)
    requires Fits(l, base, s) && i < |s|
    ensures Fits(l, base, Without(s, i))
  {
  }

  lemma RoundFits(l: Limits, w: Ledger, amounts: seq<int>)
    requires Sensible(l) && Sound(l, w) && Planned(l.h, amounts, l.target - InChannels(w))
    ensures Fits(l, w.base, amounts)
  {
    SumNonNegative(w.own);
    forall i | 0 <= i < |amounts| ensures w.base + amounts[i] <= l.target { PartOfSum(amounts, i); }
  }

  lemma StepSound(l: Limits, w: Ledger, m: Move, w': Ledger)
    requires Sensible(l) && Sound(l, w) && w' == Step(l, w, m)
    ensures Sound(l, w')
  {
    if !Enabled(l, w, m) {
    } else if m.Round? {
      RoundFits(l, w, m.amounts);
    } else if m.Opened? {
      OpenedSound(l, w, m.i, w');
    } else if m.Dropped? {
      WithoutFits(l, w.base, w.connecting, m.i);
    } else if m.ClosedOwn? {
      ClosedSound(l, w, m.i, w');
    }
  }

  lemma OpenedSound(l: Limits, w: Ledger, i: nat, w': Ledger)
    requires Sound(l, w) && i < |w.connecting| && InChannels(w) + w.connecting[i] <= l.total
    requires w' == w.(own := w.own + [w.connecting[i]], connecting := Without(w.connecting, i))
    ensures Sound(l, w')
  {
    WithoutFits(l, w.base, w.connecting, i);
    SumAppend(w.own, w.connecting[i]);
  }

  lemma ClosedSound(l: Limits, w: Ledger, i: nat, w': Ledger)
    requires 1 <= l.h.minChanSize && Sound(l, w) && i < |w.own| && w' == w.(own := Without(w.own, i))
    ensures Sound(l, w')
  {
    WithoutFits(l, w.base, w.own, i);
    SumWithout(w.own, i);
  }

  /** A round commits what it plans, an open moves its amount into a channel, a drop frees it, and closing takes
      exactly what the channel held out of the channels. */
  lemma MoveAccounts(l: Limits, w: Ledger, m: Move)
    requires Enabled(l, w, m)
    ensures var w' := Step(l, w, m);
      match m
      case Round(amounts) => InChannels(w') == InChannels(w) && Sum(w'.connecting) == Sum(w.connecting) + Sum(amounts)
      case Opened(i) =>
        InChannels(w') == InChannels(w) + w.connecting[i] && Sum(w'.connecting) == Sum(w.connecting) - w.connecting[i]
      case Dropped(i) => InChannels(w') == InChannels(w) && Sum(w'.connecting) == Sum(w.connecting) - w.connecting[i]
      case ClosedOwn(i) => InChannels(w') == InChannels(w) - w.own[i] && w'.connecting == w.connecting
      case ClosedBase(amount) => InChannels(w') == InChannels(w) - amount && w'.connecting == w.connecting
  {
    match m
    case Round(amounts) => SumConcat(w.connecting, amounts);
    case Opened(i) =>
      SumWithout(w.connecting, i);
      SumAppend(w.own, w.connecting[i]);
    case Dropped(i) => SumWithout(w.connecting, i);
    case ClosedOwn(i) => SumWithout(w.own, i);
    case ClosedBase(_) =>
  }

  /** The agent as it starts, with what its channels hold. */
  function Initial(base: int): Ledger { Ledger(base, [], []) }

  // ----- rounds one at a time

  /** Everything on its way fits as well. */
  ghost predicate Room(l: Limits, w: Ledger) { InChannels(w) + Sum(w.connecting) <= l.target }

  /** The controller plans only while no directive is connecting. */
  ghost predicate Quiet(l: Limits, w: Ledger, m: Move) {
    m.Round? && Enabled(l, w, m) ==> w.connecting == []
  }

  lemma StepRoom(l: Limits, w: Ledger, m: Move, w': Ledger)
    requires Sensible(l) && Sound(l, w) && Room(l, w) && Quiet(l, w, m) && w' == Step(l, w, m)
    ensures Room(l, w')
  {
    if !Enabled(l, w, m) {
    } else if m.Round? {
      SumConcat(w.connecting, m.amounts);
    } else if m.Opened? {
      SumWithout(w.connecting, m.i);
      SumAppend(w.own, w.connecting[m.i]);
    } else if m.Dropped? {
      SumWithout(w.connecting, m.i);
    } else if m.ClosedOwn? {
      SumWithout(w.own, m.i);
    }
  }

  ghost predicate QuietRun(l: Limits, w: Ledger, ms: seq<Move>)
    decreases |ms|
  {
    ms == [] || (QuietRun(l, w, ms[..|ms| - 1]) && Quiet(l, Run(l, w, ms[..|ms| - 1]), ms[|ms| - 1]))
  }

  /** The allocation holds over every run that plans in this way. */
  lemma {:induction false} QuietRunsKeepAllocation(l: Limits, base: int, ms: seq<Move>)
    requires Sensible(l) && 0 <= base <= l.target && QuietRun(l, Initial(base), ms)
    ensures var w := Run(l, Initial(base), ms); Sound(l, w) && Room(l, w) && InChannels(w) <= l.target
    decreases |ms|
  {
    var w := Run(l, Initial(base), ms);
    if ms != [] {
      var before := Run(l, Initial(base), ms[..|ms| - 1]);
      QuietRunsKeepAllocation(l, base, ms[..|ms| - 1]);
      StepSound(l, before, ms[|ms| - 1], w);
      StepRoom(l, before, ms[|ms| - 1], w);
    }
    SumNonNegative(w.connecting);
  }

  // ----- all runs

  /** From whatever the channels hold within the allocation, no run exceeds it. */
  ghost predicate AllocationHolds(l: Limits) {
    forall base, ms :: 0 <= base <= l.target ==> InChannels(Run(l, Initial(base), ms)) <= l.target
  }

  /** A second channel of the smallest size would be too much, or there is no first one, or all funds are allocated. */
  ghost predicate Confined(l: Limits) {
    l.h.minChanSize > l.h.maxChanSize || l.h.minChanSize > l.target || 2 * l.h.minChanSize > l.total
    || l.target == l.total
  }

  /** At most one own channel, which fits. */
  ghost predicate Alone(l: Limits, w: Ledger) {
    Sound(l, w) && (l.target == l.total || |w.own| <= 1)
  }

  lemma StepAlone(l: Limits, w: Ledger, m: Move, w': Ledger)
    requires Sensible(l) && Confined(l) && Alone(l, w) && w' == Step(l, w, m)
    ensures Alone(l, w')
  {
    StepSound(l, w, m, w');
    if Enabled(l, w, m) && m.Opened? && |w.own| == 1 {
      assert w.own == [w.own[0]];
      SumAppend([], w.own[0]);
      assert [] + [w.own[0]] == w.own;
    }
  }

  lemma AloneFits(l: Limits, w: Ledger)
    requires Alone(l, w)
    ensures InChannels(w) <= l.target
  {
    if |w.own| == 1 {
      assert w.own == [] + [w.own[0]];
      SumAppend([], w.own[0]);
    }
  }

  lemma {:induction false} StaysAlone(l: Limits, base: int, ms: seq<Move>)
    requires Sensible(l) && Confined(l) && 0 <= base <= l.target
    ensures Alone(l, Run(l, Initial(base), ms))
    decreases |ms|
  {
    if ms != [] {
      StaysAlone(l, base, ms[..|ms| - 1]);
      StepAlone(l, Run(l, Initial(base), ms[..|ms| - 1]), ms[|ms| - 1], Run(l, Initial(base), ms));
    }
  }

  // ----- a run that exceeds the allocation

  lemma RunOne(l: Limits, w: Ledger, ms: seq<Move>, m: Move)
    ensures Run(l, w, ms + [m]) == Step(l, Run(l, w, ms), m)
  {
    assert (ms + [m])[..|ms|] == ms;
  }

  lemma SumOne(a: int)
    ensures Sum([a]) == a && Sum([a, a]) == 2 * a
  {
    assert [a] == [] + [a] && [a, a] == [a] + [a];
    SumAppend([], a);
    SumAppend([a], a);
  }

  /** Two rounds in a row plan the last bit of the allocation twice. Then old channels close, as far as needed for
      the wallet to pay for both. */
  ghost function Twice(a: int, closed: nat): seq<Move> {
    [Round([a])] + [Round([a])] + [ClosedBase(closed)] + [Opened(0)] + [Opened(0)]
  }

  /** What has to close. */
  function Needed(l: Limits): nat {
    if l.target + l.h.minChanSize <= l.total then 0 else l.target + l.h.minChanSize - l.total
  }

  lemma PlannedTwice(l: Limits, a: int)
    requires 1 <= a == l.h.minChanSize <= l.h.maxChanSize && a <= l.target
    ensures Run(l, Initial(l.target - a), [Round([a])] + [Round([a])]) == Ledger(l.target - a, [], [a, a])
  {
    var w := Initial(l.target - a);
    SumOne(a);
    RunOne(l, w, [], Round([a]));
    assert [] + [Round([a])] == [Round([a])] && [] + [a] == [a];
    RunOne(l, w, [Round([a])], Round([a]));
    assert [a] + [a] == [a, a];
  }

  lemma OpenedBoth(l: Limits, w: Ledger, ms: seq<Move>, base: int, a: int)
    requires Run(l, w, ms) == Ledger(base, [], [a, a]) && a >= 0 && base + 2 * a <= l.total
    ensures Run(l, w, ms + [Opened(0)] + [Opened(0)]) == Ledger(base, [a, a], [])
  {
    SumOne(a);
    assert Without([a, a], 0) == [a] && Without([a], 0) == [];
    assert [] + [a] == [a] && [a] + [a] == [a, a];
    RunOne(l, w, ms, Opened(0));
    RunOne(l, w, ms + [Opened(0)], Opened(0));
  }

  lemma OpenedTwice(l: Limits, a: int, closed: nat)
    requires 1 <= a == l.h.minChanSize <= l.h.maxChanSize && a + closed <= l.target && l.target + a - closed <= l.total
    ensures Run(l, Initial(l.target - a), Twice(a, closed)) == Ledger(l.target - a - closed, [a, a], [])
  {
    var w, planned := Initial(l.target - a), [Round([a])] + [Round([a])];
    PlannedTwice(l, a);
    RunOne(l, w, planned, ClosedBase(closed));
    OpenedBoth(l, w, planned + [ClosedBase(closed)], l.target - a - closed, a);
  }

  /** Unless confined, there is a run from within the allocation that exceeds it. */
  lemma Overspent(l: Limits)
    requires Sensible(l) && !Confined(l)
    ensures InChannels(Run(l, Initial(l.target - l.h.minChanSize), Twice(l.h.minChanSize, Needed(l)))) > l.target
  {
    OpenedTwice(l, l.h.minChanSize, Needed(l));
    SumOne(l.h.minChanSize);
  }

  /** The allocation is kept over every run exactly by agents for which two channels are too many anyway. */
  lemma AllocationIff(l: Limits)
    requires Sensible(l)
    ensures AllocationHolds(l) <==> Confined(l)
  {
    if Confined(l) {
      forall base, ms | 0 <= base <= l.target ensures InChannels(Run(l, Initial(base), ms)) <= l.target {
        StaysAlone(l, base, ms);
        AloneFits(l, Run(l, Initial(base), ms));
      }
    } else {
      Overspent(l);
    }
  }
}
