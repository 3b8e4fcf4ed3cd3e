/** Finite sums of reals over an index range, and the counting lemmas that connect them to sets.
    The laws about combined summands take every summand as a named function, so that a caller
    only has to show how the summands agree point by point. */
module Sums {

  /** f(0) + ... + f(n-1). */
  ghost function Sum(n: nat, f: int -> real): real {
    if n == 0 then 0.0 else Sum(n - 1, f) + f(n - 1)
  }

  /** The sum of f over the entries of a sequence, repetitions counted. */
  ghost function SumOver(s: seq<int>, f: int -> real): real {
    if s == [] then 0.0 else SumOver(s[..|s| - 1], f) + f(s[|s| - 1])
  }

  lemma {:induction false} SumEqual(n: nat, f: int -> real, g: int -> real)
    requires forall i :: 0 <= i < n ==> f(i) == g(i)
    ensures Sum(n, f) == Sum(n, g)
  {
    if n > 0 { SumEqual(n - 1, f, g); }
  }

  lemma {:induction false} SumAdds(n: nat, f: int -> real, g: int -> real, h: int -> real)
    requires forall i :: 0 <= i < n ==> h(i) == f(i) + g(i)
    ensures Sum(n, h) == Sum(n, f) + Sum(n, g)
  {
    if n > 0 { SumAdds(n - 1, f, g, h); }
  }

  lemma {:induction false} SumNonNegative(n: nat, f: int -> real)
    requires forall i :: 0 <= i < n ==> f(i) >= 0.0
    ensures Sum(n, f) >= 0.0
  {
    if n > 0 { SumNonNegative(n - 1, f); }
  }

  /** A sum with at most one nonzero term. */
  lemma {:induction false} SumSingle(n: nat, k: int, f: int -> real)
    requires forall i :: 0 <= i < n && i != k ==> f(i) == 0.0
    ensures Sum(n, f) == if 0 <= k < n then f(k) else 0.0
  {
    if n > 0 { SumSingle(n - 1, k, f); }
  }

  /** Column j of a table of summands. */
  ghost function Column(h: int -> int -> real, j: int): int -> real {
    i => h(i)(j)
  }

  /** Exchanging the order of summation. */
  lemma {:induction false} SumSwap(n: nat, m: nat, h: int -> int -> real,
                                   rows: int -> real, cols: int -> real)
    requires forall i :: 0 <= i < n ==> rows(i) == Sum(m, h(i))
    requires forall j :: 0 <= j < m ==> cols(j) == Sum(n, Column(h, j))
    ensures Sum(n, rows) == Sum(m, cols)
  {
    if n == 0 {
      SumSingle(m, m, cols);
    } else {
      var cols' := j => Sum(n - 1, Column(h, j));
      SumSwap(n - 1, m, h, rows, cols');
      SumAdds(m, cols', h(n - 1), cols);
    }
  }

  /** How often x occurs in s. */
  function Occurrences(s: seq<int>, x: int): nat {
    multiset(s)[x]
  }

  /** c + ... + c, k times: multiplication that the counting inductions can unfold. */
  ghost function Times(k: nat, c: real): real {
    if k == 0 then 0.0 else Times(k - 1, c) + c
  }

  lemma {:induction false} TimesMultiplies(k: nat, c: real)
    ensures Times(k, c) == k as real * c
  {
    if k > 0 {
      TimesMultiplies(k - 1, c);
      assert (k - 1) as real * c + c == k as real * c;
    }
  }

  lemma LastOccurs(s: seq<int>)
    requires s != []
    ensures Occurrences(s, s[|s| - 1]) > 0
  {
    OccurrencesOfLast(s, s[|s| - 1]);
  }

  lemma OccurrencesOfLast(s: seq<int>, x: int)
    requires s != []
    ensures Occurrences(s, x) == Occurrences(s[..|s| - 1], x) + (if x == s[|s| - 1] then 1 else 0)
  {
    assert s == s[..|s| - 1] + [s[|s| - 1]];
  }

  /** Summing over a sequence is summing over all values, each weighted by its multiplicity. */
  lemma {:induction false} SumOverCounts(s: seq<int>, n: nat, f: int -> real, weighted: int -> real)
    requires forall k :: 0 <= k < |s| ==> 0 <= s[k] < n
    requires forall i :: 0 <= i < n ==> weighted(i) == Times(Occurrences(s, i), f(i))
    ensures SumOver(s, f) == Sum(n, weighted)
  {
    if s == [] {
      SumSingle(n, n, weighted);
    } else {
      var init, last := s[..|s| - 1], s[|s| - 1];
      var weighted' := i => Times(Occurrences(init, i), f(i));
      SumOverCounts(init, n, f, weighted');
      var d := i => if i == last then f(i) else 0.0;
      SumSingle(n, last, d);
      forall i | 0 <= i < n ensures weighted(i) == weighted'(i) + d(i) {
        OccurrencesOfLast(s, i);
      }
      SumAdds(n, weighted', d, weighted);
    }
  }

  /** The members of S that cls puts in class i. */
  ghost function Class<T>(S: set<T>, cls: T -> int, i: int): set<T> {
    set x | x in S && cls(x) == i
  }

  /** A set split into finitely many classes has as many elements as the classes together. */
  lemma {:induction false} ClassesCount<T>(S: set<T>, cls: T -> int, n: nat, sizes: int -> real)
    requires forall x :: x in S ==> 0 <= cls(x) < n
    requires forall i :: 0 <= i < n ==> sizes(i) == |Class(S, cls, i)| as real
    ensures |S| as real == Sum(n, sizes)
  {
    if n == 0 {
      assert S == {};
    } else {
      var top := Class(S, cls, n - 1);
      var rest := S - top;
      forall i | 0 <= i < n - 1 ensures Class(rest, cls, i) == Class(S, cls, i) {}
      ClassesCount(rest, cls, n - 1, sizes);
      assert S == rest + top;
    }
  }

  lemma NoMembers(S: set<int>)
    requires forall x :: x in S ==> false
    ensures S == {}
  {
    if x :| x in S { assert false; }
    assert forall x :: x !in S;
  }

  /** All concatenations of a member of A with a member of B. */
  ghost function Joined<T>(A: set<seq<T>>, B: set<seq<T>>): set<seq<T>> {
    set p, q | p in A && q in B :: p + q
  }

  /** When the left parts all have the same length, no two concatenations coincide. */
  lemma {:induction false} JoinedCount<T>(A: set<seq<T>>, B: set<seq<T>>, k: nat)
    requires forall p :: p in A ==> |p| == k
    ensures |Joined(A, B)| as real == Times(|A|, |B| as real)
  {
    if A == {} {
      assert Joined(A, B) == {};
    } else {
      var p :| p in A;
      var rest := A - {p};
      JoinedCount(rest, B, k);
      JoinedOneMore(p, rest, B, k);
      assert A == rest + {p};
    }
  }

  lemma JoinedOneMore<T>(p: seq<T>, rest: set<seq<T>>, B: set<seq<T>>, k: nat)
    requires |p| == k && p !in rest
    requires forall q :: q in rest ==> |q| == k
    ensures |Joined(rest + {p}, B)| == |Joined(rest, B)| + |B| && |rest + {p}| == |rest| + 1
  {
    PrefixedCount(p, B);
    JoinedSplits(p, rest, B, k);
  }

  lemma JoinedSplits<T>(p: seq<T>, rest: set<seq<T>>, B: set<seq<T>>, k: nat)
    requires |p| == k && p !in rest
    requires forall q :: q in rest ==> |q| == k
    ensures Joined(rest + {p}, B) == Joined(rest, B) + Joined({p}, B)
    ensures Joined(rest, B) !! Joined({p}, B)
  {
    forall r | r in Joined(rest, B) ensures r[..k] in rest && r !in Joined({p}, B) {
      var a, b :| a in rest && b in B && r == a + b;
      assert r[..k] == a;
      forall q | q in B ensures p + q != r {
        assert (p + q)[..k] == p;
      }
    }
  }

  lemma {:induction false} PrefixedCount<T>(p: seq<T>, B: set<seq<T>>)
    ensures |Joined({p}, B)| == |B|
  {
    if B == {} {
      assert Joined({p}, B) == {};
    } else {
      var q :| q in B;
      PrefixedCount(p, B - {q});
      assert Joined({p}, B) == Joined({p}, B - {q}) + {p + q};
      forall q' | q' in B - {q} ensures p + q' != p + q {
        assert (p + q)[|p|..] == q && (p + q')[|p|..] == q';
      }
    }
  }
}
