/** The bit stream between bytes and word indices: numbers of a fixed width, most significant bit first. */
module BitStream {

  function Pow2(k: nat): nat {
    if k == 0 then 1 else 2 * Pow2(k - 1)
  }

  /** The number that a list of bits spells. */
  function Value(bits: seq<bool>): nat {
    if bits == [] then 0 else 2 * Value(bits[..|bits| - 1]) + if bits[|bits| - 1] then 1 else 0
  }

  /** The k lowest bits of v. */
  function Bits(v: nat, k: nat): (b: seq<bool>)
    ensures |b| == k
  {
    if k == 0 then [] else Bits(v / 2, k - 1) + [v % 2 == 1]
  }

  lemma {:induction false} ValueBits(v: nat, k: nat)
    requires v < Pow2(k)
    ensures Value(Bits(v, k)) == v
  {
    if k > 0 {
      ValueBits(v / 2, k - 1);
      assert Bits(v, k)[..k - 1] == Bits(v / 2, k - 1);
    }
  }

  lemma {:induction false} BitsValue(bits: seq<bool>)
    ensures Value(bits) < Pow2(|bits|) && Bits(Value(bits), |bits|) == bits
  {
    if bits != [] {
      BitsValue(bits[..|bits| - 1]);
    }
  }

  /** The length of n numbers of width k. */
  function Total(k: nat, n: nat): nat {
    if n == 0 then 0 else Total(k, n - 1) + k
  }

  lemma {:induction false} TotalMultiplies(k: nat, n: nat)
    ensures Total(k, n) == k * n
  {
    if n > 0 {
      TotalMultiplies(k, n - 1);
      assert k * n == k * (n - 1) + k;
    }
  }

  lemma {:induction false} TotalMonotone(k: nat, i: nat, n: nat)
    requires i <= n
    ensures Total(k, i) <= Total(k, n)
    decreases n - i
  {
    if i < n { TotalMonotone(k, i + 1, n); }
  }

  /** Writing numbers of width k to a stream. */
  function Pack(k: nat, vals: seq<nat>): (bits: seq<bool>)
    ensures |bits| == Total(k, |vals|)
  {
    if vals == [] then [] else Pack(k, vals[..|vals| - 1]) + Bits(vals[|vals| - 1], k)
  }

  /** Reading n numbers of width k from a stream. */
  function Unpack(k: nat, bits: seq<bool>, n: nat): (vals: seq<nat>)
    requires |bits| == Total(k, n)
    ensures |vals| == n
    decreases n
  {
    if n == 0 then [] else Unpack(k, bits[..|bits| - k], n - 1) + [Value(bits[|bits| - k..])]
  }

  ghost predicate Fits(k: nat, vals: seq<nat>) {
    forall i :: 0 <= i < |vals| ==> vals[i] < Pow2(k)
  }

  /** Reading what was written gives the numbers back. */
  ghost predicate ReadsBack(k: nat, vals: seq<nat>) {
    Unpack(k, Pack(k, vals), |vals|) == vals
  }

  lemma {:induction false} UnpackPack(k: nat, vals: seq<nat>)
    requires Fits(k, vals)
    ensures ReadsBack(k, vals)
  {
    if vals != [] {
      var init, v := vals[..|vals| - 1], vals[|vals| - 1];
      assert vals == init + [v] && v < Pow2(k) && Fits(k, init);
      UnpackPack(k, init);
      ReadsBackNext(k, init, v);
    }
  }

  lemma ReadsBackNext(k: nat, init: seq<nat>, v: nat)
    requires v < Pow2(k) && ReadsBack(k, init)
    ensures ReadsBack(k, init + [v])
  {
    ValueBits(v, k);
    PackAppend(k, init, v);
    UnpackAppend(k, Pack(k, init), |init|, Bits(v, k));
  }

  /** Writing what was read gives the bits back. */
  ghost predicate WritesBack(k: nat, bits: seq<bool>, n: nat)
    requires |bits| == Total(k, n)
  {
    Pack(k, Unpack(k, bits, n)) == bits
  }

  lemma {:induction false} PackUnpack(k: nat, bits: seq<bool>, n: nat)
    requires |bits| == Total(k, n)
    ensures WritesBack(k, bits, n)
    decreases n
  {
    if n > 0 {
      var init, last := SplitLast(k, bits, n - 1);
      PackUnpack(k, init, n - 1);
      WritesBackNext(k, init, n - 1, last, bits, n);
    } else {
      assert bits == [];
    }
  }

  lemma SplitLast(k: nat, bits: seq<bool>, n: nat) returns (init: seq<bool>, last: seq<bool>)
    requires |bits| == Total(k, n + 1)
    ensures bits == init + last && |init| == Total(k, n) && |last| == k
  {
    init, last := bits[..|bits| - k], bits[|bits| - k..];
  }

  lemma WritesBackNext(k: nat, init: seq<bool>, n: nat, last: seq<bool>, bits: seq<bool>, m: nat)
    requires |init| == Total(k, n) && |last| == k && WritesBack(k, init, n)
    requires bits == init + last && m == n + 1 && |bits| == Total(k, m)
    ensures WritesBack(k, bits, m)
  {
    UnpackAppend(k, init, n, last);
    PackLast(k, init, last, Unpack(k, init, n));
  }

  lemma PackLast(k: nat, init: seq<bool>, last: seq<bool>, vals: seq<nat>)
    requires Pack(k, vals) == init && |last| == k
    ensures Pack(k, vals + [Value(last)]) == init + last
  {
    BitsValue(last);
    PackAppend(k, vals, Value(last));
  }

  lemma {:induction false} UnpackFits(k: nat, bits: seq<bool>, n: nat)
    requires |bits| == Total(k, n)
    ensures forall i :: 0 <= i < n ==> Unpack(k, bits, n)[i] < Pow2(k)
    decreases n
  {
    if n > 0 {
      UnpackFits(k, bits[..|bits| - k], n - 1);
      BitsValue(bits[|bits| - k..]);
    }
  }

  lemma PackAppend(k: nat, vals: seq<nat>, v: nat)
    ensures Pack(k, vals + [v]) == Pack(k, vals) + Bits(v, k)
  {
    assert (vals + [v])[..|vals|] == vals;
  }

  lemma UnpackAppend(k: nat, bits: seq<bool>, n: nat, more: seq<bool>)
    requires |bits| == Total(k, n) && |more| == k
    ensures Unpack(k, bits + more, n + 1) == Unpack(k, bits, n) + [Value(more)]
  {
    assert (bits + more)[..|bits|] == bits && (bits + more)[|bits|..] == more;
  }

  /** Regrouping numbers of width k as m numbers of width l. */
  function Regroup(k: nat, l: nat, vals: seq<nat>, m: nat): seq<nat>
    requires Total(k, |vals|) == Total(l, m)
  {
    Unpack(l, Pack(k, vals), m)
  }

  /** Regrouping there and back is the identity, and regrouped numbers fit their width. */
  lemma RegroupInverse(k: nat, l: nat, vals: seq<nat>, m: nat)
    requires Total(k, |vals|) == Total(l, m) && Fits(k, vals)
    ensures |Regroup(k, l, vals, m)| == m
    ensures forall i :: 0 <= i < m ==> Regroup(k, l, vals, m)[i] < Pow2(l)
    ensures Regroup(l, k, Regroup(k, l, vals, m), |vals|) == vals
  {
    PackUnpack(l, Pack(k, vals), m);
    UnpackFits(l, Pack(k, vals), m);
    UnpackPack(k, vals);
  }

  // ----- the numbers that are kept

  /** The number with these digits, the most significant one first. */
  ghost function Number(base: nat, digits: seq<nat>): nat {
    if digits == [] then 0 else base * Number(base, digits[..|digits| - 1]) + digits[|digits| - 1]
  }

  lemma {:induction false} ValueConcat(a: seq<bool>, b: seq<bool>)
    ensures Value(a + b) == Value(a) * Pow2(|b|) + Value(b)
  {
    if b == [] {
      assert a + b == a;
    } else {
      var init := b[..|b| - 1];
      ValueConcat(a, init);
      assert (a + b)[..|a + b| - 1] == a + init;
      assert 2 * (Value(a) * Pow2(|init|)) == Value(a) * Pow2(|b|);
    }
  }

  /** The bits written for some numbers spell the number of which those are the digits. */
  ghost predicate Keeps(k: nat, vals: seq<nat>) {
    Value(Pack(k, vals)) == Number(Pow2(k), vals)
  }

  lemma {:induction false} PackNumber(k: nat, vals: seq<nat>)
    requires Fits(k, vals)
    ensures Keeps(k, vals)
  {
    if vals != [] {
      var init, v := vals[..|vals| - 1], vals[|vals| - 1];
      assert vals == init + [v] && v < Pow2(k) && Fits(k, init);
      PackNumber(k, init);
      KeepsNext(k, init, v);
    }
  }

  lemma KeepsNext(k: nat, init: seq<nat>, v: nat)
    requires v < Pow2(k) && Keeps(k, init)
    ensures Keeps(k, init + [v])
  {
    PackAppend(k, init, v);
    ValueConcat(Pack(k, init), Bits(v, k));
    ValueBits(v, k);
    NumberAppend(Pow2(k), init, v);
  }

  lemma NumberAppend(base: nat, digits: seq<nat>, d: nat)
    ensures Number(base, digits + [d]) == Number(base, digits) * base + d
  {
    assert (digits + [d])[..|digits|] == digits;
  }

  /** Regrouping changes the digits and not the number. */
  lemma RegroupNumber(k: nat, l: nat, vals: seq<nat>, m: nat)
    requires Total(k, |vals|) == Total(l, m) && Fits(k, vals)
    ensures Number(Pow2(l), Regroup(k, l, vals, m)) == Number(Pow2(k), vals)
  {
    PackNumber(k, vals);
    PackUnpack(l, Pack(k, vals), m);
    UnpackFits(l, Pack(k, vals), m);
    PackNumber(l, Regroup(k, l, vals, m));
  }

  lemma {:induction false} LargerQuotient(base: nat, x: nat, u: nat, y: nat)
    requires u < base && x < y
    ensures base * x + u < base * y
  {
    if x + 1 < y { LargerQuotient(base, x, u, y - 1); }
    assert base * y == base * (y - 1) + base;
  }

  lemma SameQuotient(base: nat, x: nat, u: nat, y: nat, v: nat)
    requires u < base && v < base && base * x + u == base * y + v
    ensures x == y && u == v
  {
    if x < y { LargerQuotient(base, x, u, y); }
    if y < x { LargerQuotient(base, y, v, x); }
  }

  /** A number has its digits only once. */
  lemma {:induction false} NumberOnce(base: nat, a: seq<nat>, b: seq<nat>)
    requires |a| == |b| && Number(base, a) == Number(base, b)
    requires forall i :: 0 <= i < |a| ==> a[i] < base && b[i] < base
    ensures a == b
  {
    if a != [] {
      var n := |a| - 1;
      SameQuotient(base, Number(base, a[..n]), a[n], Number(base, b[..n]), b[n]);
      NumberOnce(base, a[..n], b[..n]);
      assert a == a[..n] + [a[n]] && b == b[..n] + [b[n]];
    }
  }
}
