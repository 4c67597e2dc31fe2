/**
 * The reductions `BoidPerformanceMetrics.PrintResults` applies to its sample histories:
 * LINQ's `Average`, `Min`, `Max` and `OrderBy(x => x).Take(k)`, the "1% low" built from
 * them, and the truncating `(long)` cast of an average.
 */
module Statistics {
  import Geometry

  function Sum(s: seq<real>): real {
    if s == [] then 0.0 else Sum(s[..|s| - 1]) + s[|s| - 1]
  }

  /** `Average()`; LINQ throws on an empty sequence, hence the precondition. */
  function Mean(s: seq<real>): real
    requires |s| > 0
  {
    Sum(s) / (|s| as real)
  }

  /** `Min()` */
  function Min(s: seq<real>): real
    requires |s| > 0
  {
    if |s| == 1 then s[0]
    else
      var m := Min(s[..|s| - 1]);
      if s[|s| - 1] < m then s[|s| - 1] else m
  }

  /** `Max()` */
  function Max(s: seq<real>): real
    requires |s| > 0
  {
    if |s| == 1 then s[0]
    else
      var m := Max(s[..|s| - 1]);
      if s[|s| - 1] > m then s[|s| - 1] else m
  }

  predicate Sorted(s: seq<real>) {
    forall i, j :: 0 <= i < j < |s| ==> s[i] <= s[j]
  }

  /** Places `x` in front of the first element of the sorted `s` that is not smaller. */
  function Insert(x: real, s: seq<real>): seq<real> {
    if s == [] || x <= s[0] then [x] + s else [s[0]] + Insert(x, s[1..])
  }

  /**
   * `OrderBy(x => x)`. LINQ sorts stably; on plain numbers equal keys are equal
   * values, so any ascending permutation is the same sequence.
   */
  function Sort(s: seq<real>): seq<real> {
    if s == [] then [] else Insert(s[|s| - 1], Sort(s[..|s| - 1]))
  }

  /** `Mathf.Max(1, (int)(n * 0.01f))`: how many of the slowest frames make up the 1% low. */
  function OnePercentIndex(n: nat): (k: nat)
    ensures 1 <= k
    ensures n >= 1 ==> k <= n
    ensures k == 1 || k * 100 <= n < (k + 1) * 100
    ensures n >= 200 ==> k * 100 <= n < (k + 1) * 100
  {
    if n / 100 < 1 then 1 else n / 100
  }

  /** `sortedFps.Take(onePercentIndex).Average()`: the mean of the smallest 1% of the samples. */
  function OnePercentLow(s: seq<real>): real
    requires |s| > 0
  {
    SortLength(s);
    Mean(Sort(s)[..OnePercentIndex(|s|)])
  }

  /** `(long)x`: C# truncates towards zero. */
  function TruncateTowardZero(x: real): (r: int)
    ensures x >= 0.0 ==> 0 <= r && r as real <= x < r as real + 1.0
    ensures x < 0.0 ==> r <= 0 && r as real - 1.0 < x <= r as real
  {
    if x >= 0.0 then x.Floor else -((-x).Floor)
  }

  function Reals(s: seq<int>): (r: seq<real>)
    ensures |r| == |s|
  {
    seq(|s|, i requires 0 <= i < |s| => s[i] as real)
  }

  /** `(long)gcAllocHistory.Average()`: the mean allocation per frame, truncated. */
  function AverageAlloc(s: seq<int>): int
    requires |s| > 0
  {
    TruncateTowardZero(Mean(Reals(s)))
  }

  // ----- Min, Max and Mean -----

  lemma {:induction false} MinIsLeast(s: seq<real>)
    requires |s| > 0
    ensures Min(s) in s
    ensures forall i :: 0 <= i < |s| ==> Min(s) <= s[i]
  {
    if |s| > 1 {
      var init := s[..|s| - 1];
      MinIsLeast(init);
      assert forall i :: 0 <= i < |init| ==> s[i] == init[i];
    }
  }

  lemma {:induction false} MaxIsGreatest(s: seq<real>)
    requires |s| > 0
    ensures Max(s) in s
    ensures forall i :: 0 <= i < |s| ==> s[i] <= Max(s)
  {
    if |s| > 1 {
      var init := s[..|s| - 1];
      MaxIsGreatest(init);
      assert forall i :: 0 <= i < |init| ==> s[i] == init[i];
    }
  }

  lemma {:induction false} SumAppend(s: seq<real>, t: seq<real>)
    ensures Sum(s + t) == Sum(s) + Sum(t)
  {
    if t == [] {
      assert s + t == s;
    } else {
      var t' := t[..|t| - 1];
      assert (s + t)[..|s + t| - 1] == s + t';
      assert (s + t)[|s + t| - 1] == t[|t| - 1];
      SumAppend(s, t');
    }
  }

  /** Every sample at least `lo` bounds the sum from below by `n * lo`. */
  lemma {:induction false} SumAtLeast(s: seq<real>, lo: real)
    requires forall i :: 0 <= i < |s| ==> lo <= s[i]
    ensures (|s| as real) * lo <= Sum(s)
  {
    if s != [] {
      var init := s[..|s| - 1];
      assert forall i :: 0 <= i < |init| ==> init[i] == s[i];
      SumAtLeast(init, lo);
      var n := |init| as real;
      assert (n + 1.0) * lo == n * lo + lo;
    }
  }

  /** Every sample at most `hi` bounds the sum from above by `n * hi`. */
  lemma {:induction false} SumAtMost(s: seq<real>, hi: real)
    requires forall i :: 0 <= i < |s| ==> s[i] <= hi
    ensures Sum(s) <= (|s| as real) * hi
  {
    if s != [] {
      var init := s[..|s| - 1];
      assert forall i :: 0 <= i < |init| ==> init[i] == s[i];
      SumAtMost(init, hi);
      var n := |init| as real;
      assert (n + 1.0) * hi == n * hi + hi;
    }
  }

  /** Taking the `k`-th sample out lowers the sum by exactly that sample. */
  lemma SumRemove(t: seq<real>, k: nat)
    requires k < |t|
    ensures Sum(t) == Sum(t[..k] + t[k + 1..]) + t[k]
  {
    var a, x, b := t[..k], t[k], t[k + 1..];
    var xb := [x] + b;
    assert t == a + xb;
    SumAppend(a, xb);
    SumAppend([x], b);
    SumSingle(x);
    SumAppend(a, b);
  }

  lemma MultisetRemove(t: seq<real>, k: nat)
    requires k < |t|
    ensures multiset(t[..k] + t[k + 1..]) == multiset(t) - multiset{t[k]}
  {
    var a, x, b := t[..k], t[k], t[k + 1..];
    assert t == a + [x] + b;
    assert multiset(t) == multiset(a) + multiset{x} + multiset(b);
  }

  lemma SumSingle(x: real)
    ensures Sum([x]) == x
  {
    assert [x][..0] == [];
  }

  /** The sum depends only on the multiset of samples, not on their order. */
  lemma {:induction false} SumPermutation(s: seq<real>, t: seq<real>)
    requires multiset(s) == multiset(t)
    ensures Sum(s) == Sum(t)
  {
    if s != [] {
      var init, x := s[..|s| - 1], s[|s| - 1];
      assert s == init + [x];
      assert multiset(init) == multiset(s) - multiset{x};
      assert x in multiset(t);
      var k :| 0 <= k < |t| && t[k] == x;
      SumRemove(t, k);
      MultisetRemove(t, k);
      SumPermutation(init, t[..k] + t[k + 1..]);
    }
  }

  /** `a / c <= b / d` follows from the cross-multiplied comparison. */
  lemma DivCompare(a: real, b: real, c: real, d: real)
    requires c > 0.0 && d > 0.0 && a * d <= b * c
    ensures a / c <= b / d
  {
    var x, y := a / c, b / d;
    assert x * c == a && y * d == b;
    assert a * d == x * (c * d) && b * c == y * (c * d);
    if x > y {
      Geometry.MulStrict(y, x, c * d);
    }
  }

  lemma MeanAtLeast(s: seq<real>, lo: real)
    requires |s| > 0 && forall i :: 0 <= i < |s| ==> lo <= s[i]
    ensures lo <= Mean(s)
  {
    SumAtLeast(s, lo);
    DivCompare(lo, Sum(s), 1.0, |s| as real);
  }

  lemma MeanAtMost(s: seq<real>, hi: real)
    requires |s| > 0 && forall i :: 0 <= i < |s| ==> s[i] <= hi
    ensures Mean(s) <= hi
  {
    SumAtMost(s, hi);
    DivCompare(Sum(s), hi, |s| as real, 1.0);
  }

  /** The mean lies between the smallest and the largest sample. */
  lemma MeanBetween(s: seq<real>)
    requires |s| > 0
    ensures Min(s) <= Mean(s) <= Max(s)
  {
    MinIsLeast(s);
    MaxIsGreatest(s);
    MeanAtLeast(s, Min(s));
    MeanAtMost(s, Max(s));
  }

  // ----- Sorting -----

  lemma {:induction false} InsertMultiset(x: real, s: seq<real>)
    ensures multiset(Insert(x, s)) == multiset(s) + multiset{x}
  {
    if s != [] && !(x <= s[0]) {
      InsertMultiset(x, s[1..]);
      assert s == [s[0]] + s[1..];
    }
  }

  lemma {:induction false} InsertSorted(x: real, s: seq<real>)
    requires Sorted(s)
    ensures Sorted(Insert(x, s))
  {
    if s != [] && !(x <= s[0]) {
      var tail := s[1..];
      var r := Insert(x, tail);
      InsertSorted(x, tail);
      InsertMultiset(x, tail);
      forall j | 0 <= j < |r|
        ensures s[0] <= r[j]
      {
        assert r[j] in multiset(r);
        if r[j] != x {
          assert r[j] in tail;
          var i :| 0 <= i < |tail| && tail[i] == r[j];
          assert s[i + 1] == r[j];
        }
      }
    }
  }

  /** `OrderBy` yields an ascending permutation of its input. */
  lemma {:induction false} SortFacts(s: seq<real>)
    ensures Sorted(Sort(s))
    ensures multiset(Sort(s)) == multiset(s)
  {
    if s != [] {
      var init := s[..|s| - 1];
      assert s == init + [s[|s| - 1]];
      SortFacts(init);
      InsertSorted(s[|s| - 1], Sort(init));
      InsertMultiset(s[|s| - 1], Sort(init));
    }
  }

  lemma SortLength(s: seq<real>)
    ensures |Sort(s)| == |s|
  {
    SortFacts(s);
    assert |multiset(Sort(s))| == |multiset(s)|;
  }

  /** `P <= k*m` and `j*m <= Q` give `P*(k+j) <= (P+Q)*k`. */
  lemma CrossBound(P: real, Q: real, T: real, k: real, j: real, n: real, m: real)
    requires 0.0 < k && 0.0 <= j && n == k + j
    requires P <= k * m && j * m <= Q && T == P + Q
    ensures P * n <= T * k
  {
    Geometry.MulMono(P, k * m, j);
    Geometry.MulMono(j * m, Q, k);
    assert P * n == P * k + P * j;
    assert T * k == P * k + Q * k;
    assert (k * m) * j == (j * m) * k;
  }

  /** In an ascending sequence every sample up to the `k`-th is at most it, and every later one at least it. */
  lemma SortedSplit(t: seq<real>, k: nat)
    requires Sorted(t) && 1 <= k <= |t|
    ensures forall i :: 0 <= i < k ==> t[..k][i] <= t[k - 1]
    ensures forall i :: 0 <= i < |t| - k ==> t[k - 1] <= t[k..][i]
  {
    forall i | 0 <= i < k
      ensures t[..k][i] <= t[k - 1]
    {
      if i < k - 1 { assert t[i] <= t[k - 1]; }
    }
    forall i | 0 <= i < |t| - k
      ensures t[k - 1] <= t[k..][i]
    {
      assert t[k - 1] <= t[k + i];
    }
  }

  /** Bounds on the two sides of a split turn into bounds on their sums. */
  lemma SplitSums(t: seq<real>, k: nat, m: real)
    requires 1 <= k <= |t|
    requires forall i :: 0 <= i < k ==> t[..k][i] <= m
    requires forall i :: 0 <= i < |t| - k ==> m <= t[k..][i]
    ensures Sum(t) == Sum(t[..k]) + Sum(t[k..])
    ensures Sum(t[..k]) <= (|t[..k]| as real) * m
    ensures (|t[k..]| as real) * m <= Sum(t[k..])
  {
    assert Sum(t) == Sum(t[..k]) + Sum(t[k..]) by {
      assert t == t[..k] + t[k..];
      SumAppend(t[..k], t[k..]);
    }
    SumAtMost(t[..k], m);
    SumAtLeast(t[k..], m);
  }

  /**
   * The arithmetic behind `PrefixMeanAtMost`: a prefix whose sum is at most `m` per
   * sample and a suffix whose sum is at least `m` per sample give a prefix mean at most
   * the overall mean.
   */
  lemma PrefixMeanFromSums(t: seq<real>, k: nat, m: real)
    requires 1 <= k <= |t|
    requires Sum(t) == Sum(t[..k]) + Sum(t[k..])
    requires Sum(t[..k]) <= (|t[..k]| as real) * m
    requires (|t[k..]| as real) * m <= Sum(t[k..])
    ensures Mean(t[..k]) <= Mean(t)
  {
    var p, q := t[..k], t[k..];
    CrossBound(Sum(p), Sum(q), Sum(t), |p| as real, |q| as real, |t| as real, m);
    DivCompare(Sum(p), Sum(t), |p| as real, |t| as real);
  }

  /** In an ascending sequence the mean of any non-empty prefix is at most the overall mean. */
  lemma PrefixMeanAtMost(t: seq<real>, k: nat)
    requires Sorted(t) && 1 <= k <= |t|
    ensures Mean(t[..k]) <= Mean(t)
  {
    SortedSplit(t, k);
    SplitSums(t, k, t[k - 1]);
    PrefixMeanFromSums(t, k, t[k - 1]);
  }

  /**
   * The 1% low is never below the minimum nor above the mean: it averages the
   * smallest samples.
   */
  lemma OnePercentLowBounds(s: seq<real>)
    requires |s| > 0
    ensures Min(s) <= OnePercentLow(s) <= Mean(s)
  {
    var t := Sort(s);
    SortFacts(s);
    SortLength(s);
    var k := OnePercentIndex(|s|);
    var p := t[..k];
    PrefixMeanAtMost(t, k);
    SumPermutation(t, s);
    MinIsLeast(s);
    forall i | 0 <= i < |p|
      ensures Min(s) <= p[i]
    {
      assert p[i] in multiset(t);
    }
    MeanAtLeast(p, Min(s));
  }

  /** The 1% low of a single sample is that sample. */
  lemma OnePercentLowSingle(x: real)
    ensures OnePercentLow([x]) == x
  {
    assert Sort([x]) == Insert(x, []) == [x];
    assert Sum([x]) == Sum([]) + x;
  }

  /** When every sample is `x`, the average, the extremes and the 1% low are all `x`. */
  lemma UniformSamples(s: seq<real>, x: real)
    requires |s| > 0 && forall i :: 0 <= i < |s| ==> s[i] == x
    ensures Mean(s) == x && Min(s) == x && Max(s) == x && OnePercentLow(s) == x
  {
    MinIsLeast(s);
    MaxIsGreatest(s);
    MeanAtLeast(s, x);
    MeanAtMost(s, x);
    OnePercentLowBounds(s);
  }

  /** The truncated average allocation never moves away from zero past the true mean. */
  lemma AverageAllocBounds(s: seq<int>)
    requires |s| > 0
    ensures var m := Mean(Reals(s));
            var r := AverageAlloc(s) as real;
            (m >= 0.0 ==> 0.0 <= r <= m < r + 1.0) && (m < 0.0 ==> r - 1.0 < m <= r <= 0.0)
  {
  }
}
