/** The numpy reductions the event study applies to return vectors, over
    exact reals: sum, mean, population variance (`np.var`, ddof 0),
    cumulative sum, first differences, column-wise sums of a list of equally
    long vectors (`np.sum(..., axis=0)`), minimum and maximum. */
module Numerics {
  import opened Python

  /** `np.sum` of a vector, accumulated from the left. */
  function Sum(s: seq<real>): real
  {
    if s == [] then 0.0 else Sum(s[..|s| - 1]) + s[|s| - 1]
  }

  lemma {:induction false} SumConcat(a: seq<real>, b: seq<real>)
    ensures Sum(a + b) == Sum(a) + Sum(b)
    decreases |b|
  {
    if b != [] {
      var n := |b| - 1;
      assert (a + b)[..|a + b| - 1] == a + b[..n];
      assert (a + b)[|a + b| - 1] == b[n];
      SumConcat(a, b[..n]);
      calc {
        Sum(a + b);
        Sum(a + b[..n]) + b[n];
        Sum(a) + Sum(b[..n]) + b[n];
        Sum(a) + Sum(b);
      }
    } else {
      assert a + b == a;
    }
  }

  lemma {:induction false} SumNonNegative(s: seq<real>)
    requires forall k :: 0 <= k < |s| ==> s[k] >= 0.0
    ensures Sum(s) >= 0.0
  {
    if s != [] {
      SumNonNegative(s[..|s| - 1]);
    }
  }

  /** The sum of n copies of c is n times c. */
  lemma {:induction false} SumRepeat(c: real, n: nat)
    ensures Sum(Repeat(c, n)) == n as real * c
  {
    if n > 0 {
      assert Repeat(c, n) == Repeat(c, n - 1) + [c];
      SumRepeat(c, n - 1);
    }
  }

  /** A vector whose every entry is c sums to |s| c. */
  lemma {:induction false} SumConstant(s: seq<real>, c: real)
    requires forall k :: 0 <= k < |s| ==> s[k] == c
    ensures Sum(s) == |s| as real * c
  {
    if s != [] {
      SumConstant(s[..|s| - 1], c);
    }
  }

  /** Every entry lies between `lo` and `hi`, so the sum lies between
      |s| lo and |s| hi. */
  lemma {:induction false} SumBetween(s: seq<real>, lo: real, hi: real)
    requires forall k :: 0 <= k < |s| ==> lo <= s[k] <= hi
    ensures |s| as real * lo <= Sum(s) <= |s| as real * hi
  {
    if s != [] {
      SumBetween(s[..|s| - 1], lo, hi);
    }
  }

  /** `np.mean`; the mean of an empty vector is NaN, outside this model. */
  function Mean(s: seq<real>): real
    requires |s| > 0
  {
    Sum(s) / |s| as real
  }

  /** `np.array(s) - c` */
  function Shift(s: seq<real>, c: real): (r: seq<real>)
    ensures |r| == |s|
    ensures forall k :: 0 <= k < |s| ==> r[k] == s[k] - c
  {
    seq(|s|, k requires 0 <= k < |s| => s[k] - c)
  }

  /** `a - b` elementwise for equally long vectors. */
  function Sub(a: seq<real>, b: seq<real>): (r: seq<real>)
    requires |a| == |b|
    ensures |r| == |a|
    ensures forall k :: 0 <= k < |a| ==> r[k] == a[k] - b[k]
  {
    seq(|a|, k requires 0 <= k < |a| => a[k] - b[k])
  }

  function Squares(s: seq<real>): (r: seq<real>)
    ensures |r| == |s|
    ensures forall k :: 0 <= k < |s| ==> r[k] == s[k] * s[k] && r[k] >= 0.0
  {
    seq(|s|, k requires 0 <= k < |s| => s[k] * s[k])
  }

  /** `np.var`: the mean squared deviation from the mean (population
      variance, ddof 0). It is never negative. */
  function PopVariance(s: seq<real>): (v: real)
    requires |s| > 0
    ensures v >= 0.0
  {
    var d := Squares(Shift(s, Mean(s)));
    SumNonNegative(d);
    Mean(d)
  }

  /** A constant vector has variance zero. */
  lemma ConstantHasNoVariance(s: seq<real>)
    requires |s| > 0
    requires forall k :: 0 <= k < |s| ==> s[k] == s[0]
    ensures Mean(s) == s[0]
    ensures PopVariance(s) == 0.0
  {
    assert s == Repeat(s[0], |s|);
    SumRepeat(s[0], |s|);
    assert Mean(s) == s[0];
    var d := Squares(Shift(s, Mean(s)));
    forall k | 0 <= k < |s| ensures d[k] == 0.0 {
      assert Shift(s, Mean(s))[k] == 0.0;
    }
    assert d == Repeat(0.0, |s|);
    SumRepeat(0.0, |s|);
  }

  /** Subtracting c from every entry lowers the sum by |s| c. */
  lemma {:induction false} SumShift(s: seq<real>, c: real)
    ensures Sum(Shift(s, c)) == Sum(s) - |s| as real * c
  {
    if s != [] {
      var n := |s| - 1;
      assert Shift(s, c)[..n] == Shift(s[..n], c);
      SumShift(s[..n], c);
    }
  }

  /** Deviations from the mean sum to zero. */
  lemma Centred(s: seq<real>)
    requires |s| > 0
    ensures Sum(Shift(s, Mean(s))) == 0.0
  {
    SumShift(s, Mean(s));
  }

  /** Shifting moves the mean by the same amount and leaves the variance
      unchanged. */
  lemma ShiftInvariance(s: seq<real>, c: real)
    requires |s| > 0
    ensures Mean(Shift(s, c)) == Mean(s) - c
    ensures PopVariance(Shift(s, c)) == PopVariance(s)
  {
    var t := Shift(s, c);
    SumShift(s, c);
    ShiftedQuotient(Sum(s), |s| as real, c);
    assert Mean(t) == Mean(s) - c;
    var u, v := Shift(t, Mean(t)), Shift(s, Mean(s));
    forall k | 0 <= k < |s| ensures u[k] == v[k] {
    }
    assert u == v;
  }

  lemma ShiftedQuotient(x: real, n: real, c: real)
    requires n > 0.0
    ensures (x - n * c) / n == x / n - c
  {
  }

  /** `np.cumsum`: entry k is the sum of the first k + 1 entries. */
  function CumSum(s: seq<real>): (r: seq<real>)
    ensures |r| == |s|
    ensures forall k :: 0 <= k < |s| ==> r[k] == Sum(s[..k + 1])
  {
    if s == [] then []
    else
      var front := s[..|s| - 1];
      var r := CumSum(front) + [Sum(s)];
      forall k | 0 <= k < |s| ensures r[k] == Sum(s[..k + 1]) {
        if k < |front| {
          assert front[..k + 1] == s[..k + 1];
        } else {
          assert s[..k + 1] == s;
        }
      }
      r
  }

  /** `np.diff`: differences of neighbouring entries. */
  function Diff(s: seq<real>): (r: seq<real>)
    ensures |r| == if s == [] then 0 else |s| - 1
    ensures forall k :: 0 <= k < |r| ==> r[k] == s[k + 1] - s[k]
  {
    if |s| <= 1 then [] else seq(|s| - 1, k requires 0 <= k < |s| - 1 => s[k + 1] - s[k])
  }

  /** Differencing undoes the running sum (all but its first entry). */
  lemma DiffCumSum(a: seq<real>)
    requires a != []
    ensures Diff(CumSum(a)) == a[1..]
  {
    var c := CumSum(a);
    var d := Diff(c);
    assert |d| == |a[1..]|;
    forall k | 0 <= k < |a| - 1
      ensures d[k] == a[1..][k]
    {
      var p := a[..k + 2];
      assert p[..k + 1] == a[..k + 1];
      assert Sum(p) == Sum(a[..k + 1]) + a[k + 1];
      assert d[k] == Sum(p) - Sum(a[..k + 1]);
    }
  }

  /** The first differences of a vector add up to its last entry minus its
      first. */
  lemma {:induction false} SumDiff(s: seq<real>)
    requires s != []
    ensures Sum(Diff(s)) == s[|s| - 1] - s[0]
  {
    if |s| > 1 {
      var n := |s| - 1;
      var front := s[..n];
      var d := Diff(s);
      SumDiff(front);
      assert d[..n - 1] == Diff(front) by {
        if n > 1 {
          forall k | 0 <= k < n - 1 ensures d[k] == Diff(front)[k] {
          }
        }
      }
      calc {
        Sum(d);
        Sum(d[..n - 1]) + d[n - 1];
        Sum(Diff(front)) + (s[n] - s[n - 1]);
        (front[n - 1] - front[0]) + (s[n] - s[n - 1]);
        s[n] - s[0];
      }
    }
  }

  /** Elementwise sum of two equally long vectors. */
  function VecAdd(a: seq<real>, b: seq<real>): (r: seq<real>)
    requires |a| == |b|
    ensures |r| == |a|
    ensures forall k :: 0 <= k < |a| ==> r[k] == a[k] + b[k]
  {
    seq(|a|, k requires 0 <= k < |a| => a[k] + b[k])
  }

  /** `c * np.array(a)` */
  function Scale(c: real, a: seq<real>): (r: seq<real>)
    ensures |r| == |a|
    ensures forall k :: 0 <= k < |a| ==> r[k] == c * a[k]
  {
    seq(|a|, k requires 0 <= k < |a| => c * a[k])
  }

  /** Every row has exactly m entries. */
  ghost predicate Uniform(rows: seq<seq<real>>, m: nat)
  {
    forall e :: 0 <= e < |rows| ==> |rows[e]| == m
  }

  /** The t-th entry of every row, in row order. */
  function Column(rows: seq<seq<real>>, t: nat): (c: seq<real>)
    requires forall e :: 0 <= e < |rows| ==> t < |rows[e]|
    ensures |c| == |rows|
    ensures forall e :: 0 <= e < |rows| ==> c[e] == rows[e][t]
  {
    seq(|rows|, e requires 0 <= e < |rows| => rows[e][t])
  }

  /** `np.sum(rows, axis=0)` for rows of m entries each, accumulated one row
      at a time: entry t is the sum of column t. */
  function VecSum(rows: seq<seq<real>>, m: nat): (r: seq<real>)
    requires Uniform(rows, m)
    ensures |r| == m
    ensures forall t :: 0 <= t < m ==> r[t] == Sum(Column(rows, t))
  {
    if rows == [] then Repeat(0.0, m)
    else
      var front := rows[..|rows| - 1];
      var prev := VecSum(front, m);
      assert forall t :: 0 <= t < m ==> Column(rows, t)[..|rows| - 1] == Column(front, t);
      VecAdd(prev, rows[|rows| - 1])
  }

  /** The running sum is linear: it commutes with adding vectors... */
  lemma CumSumAdd(a: seq<real>, b: seq<real>)
    requires |a| == |b|
    ensures CumSum(VecAdd(a, b)) == VecAdd(CumSum(a), CumSum(b))
  {
    var lhs, rhs := CumSum(VecAdd(a, b)), VecAdd(CumSum(a), CumSum(b));
    forall k | 0 <= k < |a| ensures lhs[k] == rhs[k] {
      assert VecAdd(a, b)[..k + 1] == VecAdd(a[..k + 1], b[..k + 1]);
      SumOfAdd(a[..k + 1], b[..k + 1]);
    }
  }

  lemma {:induction false} SumOfAdd(a: seq<real>, b: seq<real>)
    requires |a| == |b|
    ensures Sum(VecAdd(a, b)) == Sum(a) + Sum(b)
  {
    if a != [] {
      var n := |a| - 1;
      assert VecAdd(a, b)[..n] == VecAdd(a[..n], b[..n]);
      SumOfAdd(a[..n], b[..n]);
      assert Sum(VecAdd(a, b)) == Sum(VecAdd(a[..n], b[..n])) + (a[n] + b[n]);
    }
  }

  lemma ScalePrefix(c: real, a: seq<real>, n: nat)
    requires n <= |a|
    ensures Scale(c, a)[..n] == Scale(c, a[..n])
  {
    var l, r := Scale(c, a)[..n], Scale(c, a[..n]);
    forall j | 0 <= j < n ensures l[j] == r[j] {
      assert a[..n][j] == a[j];
    }
  }

  /** ...and with scaling by a constant. */
  lemma CumSumScale(c: real, a: seq<real>)
    ensures CumSum(Scale(c, a)) == Scale(c, CumSum(a))
  {
    var lhs, rhs := CumSum(Scale(c, a)), Scale(c, CumSum(a));
    forall k | 0 <= k < |a| ensures lhs[k] == rhs[k] {
      CumSumScaleAt(c, a, k);
    }
    assert |lhs| == |rhs|;
  }

  lemma CumSumScaleAt(c: real, a: seq<real>, k: nat)
    requires k < |a|
    ensures CumSum(Scale(c, a))[k] == Scale(c, CumSum(a))[k]
  {
    var p := a[..k + 1];
    calc {
      CumSum(Scale(c, a))[k];
      Sum(Scale(c, a)[..k + 1]);
      { ScalePrefix(c, a, k + 1); }
      Sum(Scale(c, p));
      { SumOfScale(c, p); }
      c * Sum(p);
      c * CumSum(a)[k];
      Scale(c, CumSum(a))[k];
    }
  }

  lemma {:induction false} SumOfScale(c: real, a: seq<real>)
    ensures Sum(Scale(c, a)) == c * Sum(a)
  {
    if a != [] {
      var n := |a| - 1;
      ScalePrefix(c, a, n);
      SumOfScale(c, a[..n]);
      assert Sum(Scale(c, a)) == Sum(Scale(c, a[..n])) + c * a[n];
    }
  }

  /** The running sum of a column-wise sum is the column-wise sum of the
      running sums. */
  lemma {:induction false} CumSumVecSum(rows: seq<seq<real>>, m: nat, sums: seq<seq<real>>)
    requires Uniform(rows, m)
    requires |sums| == |rows|
    requires forall e :: 0 <= e < |rows| ==> sums[e] == CumSum(rows[e])
    ensures Uniform(sums, m)
    ensures CumSum(VecSum(rows, m)) == VecSum(sums, m)
  {
    if rows == [] {
      SumRepeatPrefixes(m);
    } else {
      var n := |rows| - 1;
      CumSumVecSum(rows[..n], m, sums[..n]);
      CumSumAdd(VecSum(rows[..n], m), rows[n]);
    }
  }

  lemma SumRepeatPrefixes(m: nat)
    ensures CumSum(Repeat(0.0, m)) == Repeat(0.0, m)
  {
    var z := Repeat(0.0, m);
    var c := CumSum(z);
    forall k | 0 <= k < m ensures c[k] == z[k] {
      SumConstant(z[..k + 1], 0.0);
    }
  }

  /** `np.min`: the smallest entry. */
  function MinOf(s: seq<real>): (r: real)
    requires |s| > 0
    ensures r in s
    ensures forall k :: 0 <= k < |s| ==> r <= s[k]
  {
    if |s| == 1 then s[0]
    else
      var m := MinOf(s[..|s| - 1]);
      if s[|s| - 1] < m then s[|s| - 1] else m
  }

  /** `np.max`: the largest entry. */
  function MaxOf(s: seq<real>): (r: real)
    requires |s| > 0
    ensures r in s
    ensures forall k :: 0 <= k < |s| ==> s[k] <= r
  {
    if |s| == 1 then s[0]
    else
      var m := MaxOf(s[..|s| - 1]);
      if s[|s| - 1] > m then s[|s| - 1] else m
  }

  /** The mean lies between the minimum and the maximum. */
  lemma MeanBetween(s: seq<real>)
    requires |s| > 0
    ensures MinOf(s) <= Mean(s) <= MaxOf(s)
  {
    MeanWithin(s, MinOf(s), MaxOf(s));
  }

  /** Entries within [lo, hi] have their mean within [lo, hi]. */
  lemma MeanWithin(s: seq<real>, lo: real, hi: real)
    requires |s| > 0
    requires forall k :: 0 <= k < |s| ==> lo <= s[k] <= hi
    ensures lo <= Mean(s) <= hi
  {
    SumBetween(s, lo, hi);
    DivideBetween(Sum(s), |s| as real, lo, hi);
  }

  lemma DivideBetween(x: real, n: real, lo: real, hi: real)
    requires n > 0.0
    requires n * lo <= x
    requires x <= n * hi
    ensures lo <= x / n <= hi
  {
    assert x / n - lo == (x - n * lo) / n;
    assert hi - x / n == (n * hi - x) / n;
  }
}
