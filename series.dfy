/** The derived series of a numeric column: the shared x-axis, the first
    difference (the "rate" of a counter) and the running (cumulative) average.
    Samples are real numbers; IEEE-754 rounding is not modelled. */
module Series {
  import opened Wrappers

  function Sum(s: seq<real>): real {
    if |s| == 0 then 0.0 else Sum(s[..|s| - 1]) + s[|s| - 1]
  }

  /** The x value of sample n is period * n. */
  function Axis(period: real, rows: nat): seq<real> {
    seq(rows, n => period * n as real)
  }

  /** Reference definition of the rate series: 0, then each sample minus the one before. */
  function Diff(v: seq<real>): seq<real> {
    seq(|v|, n requires 0 <= n < |v| => if n == 0 then 0.0 else v[n] - v[n - 1])
  }

  /** Reference definition of the running average: entry n is the arithmetic
      mean of the prefix v[0..n]. */
  function Means(v: seq<real>): seq<real> {
    seq(|v|, n requires 0 <= n < |v| => Sum(v[..n + 1]) / (n + 1) as real)
  }

  lemma SumSnoc(s: seq<real>, x: real)
    ensures Sum(s + [x]) == Sum(s) + x
  {
    assert (s + [x])[..|s|] == s;
  }

  lemma {:induction false} SumConcat(a: seq<real>, b: seq<real>)
    ensures Sum(a + b) == Sum(a) + Sum(b)
  {
    if |b| > 0 {
      var b' := b[..|b| - 1];
      assert a + b == (a + b') + [b[|b| - 1]];
      SumSnoc(a + b', b[|b| - 1]);
      SumConcat(a, b');
      assert b == b' + [b[|b| - 1]];
      SumSnoc(b', b[|b| - 1]);
    } else {
      assert a + b == a;
    }
  }

  lemma {:induction false} SumConstant(s: seq<real>, c: real)
    requires forall k :: 0 <= k < |s| ==> s[k] == c
    ensures Sum(s) == |s| as real * c
  {
    if |s| > 0 {
      SumConstant(s[..|s| - 1], c);
    }
  }

  lemma {:induction false} SumBounds(s: seq<real>, lo: real, hi: real)
    requires forall k :: 0 <= k < |s| ==> lo <= s[k] <= hi
    ensures |s| as real * lo <= Sum(s) <= |s| as real * hi
  {
    if |s| > 0 {
      SumBounds(s[..|s| - 1], lo, hi);
    }
  }

  lemma AddOver(x: real, y: real, c: real)
    requires c > 0.0
    ensures x + y / c == (x * c + y) / c
  {
    assert (x * c + y) / c == x * c / c + y / c;
  }

  lemma ScaleBack(a: real, b: real, k: real)
    requires k > 0.0 && a * k <= b * k
    ensures a <= b
  {
  }

  lemma DivMul(t: real, k: real)
    requires k > 0.0
    ensures t / k * k == t
  {
  }

  /** A total between k * lo and k * hi has its mean between lo and hi. */
  lemma MeanBetween(lo: real, hi: real, t: real, k: real)
    requires k > 0.0 && lo * k <= t <= hi * k
    ensures lo <= t / k <= hi
  {
    DivMul(t, k);
    ScaleBack(lo, t / k, k);
    ScaleBack(t / k, hi, k);
  }

  /** The incremental form of the mean: adding x to k values with total s. */
  lemma MeanUpdate(s: real, x: real, k: real)
    requires k > 0.0
    ensures (s + x) / (k + 1.0) == s / k + (x - s / k) / (k + 1.0)
  {
    var m := s / k;
    DivMul(s, k);
    AddOver(m, x - m, k + 1.0);
    assert m * (k + 1.0) + (x - m) == m * k + x;
  }

  lemma ConstantMean(c: real, k: real)
    requires k > 0.0
    ensures k * c / k == c
  {
  }

  /** The step the source's loop takes: the mean of v[0..n] from the mean of v[0..n-1]. */
  lemma MeansStep(v: seq<real>, n: nat)
    requires 1 <= n < |v|
    ensures Means(v)[n] == Means(v)[n - 1] + (v[n] - Means(v)[n - 1]) / (n + 1) as real
  {
    var s := Sum(v[..n]);
    assert v[..n + 1] == v[..n] + [v[n]];
    SumSnoc(v[..n], v[n]);
    var k := n as real;
    assert Means(v)[n - 1] == s / k;
    assert (n + 1) as real == k + 1.0;
    assert Means(v)[n] == (s + v[n]) / (k + 1.0);
    MeanUpdate(s, v[n], k);
  }

  /** The first element of the running average is the first sample. */
  lemma MeansFirst(v: seq<real>)
    requires |v| > 0
    ensures Means(v)[0] == v[0]
  {
    assert v[..1] == [] + [v[0]];
    SumSnoc([], v[0]);
  }

  lemma ConstantPrefix(s: seq<real>, c: real)
    requires |s| > 0 && forall k :: 0 <= k < |s| ==> s[k] == c
    ensures Sum(s) / |s| as real == c
  {
    var k := |s| as real;
    SumConstant(s, c);
    ConstantMean(c, k);
    assert Sum(s) / k == k * c / k;
  }

  /** The running average of a constant series is that series. */
  lemma MeansConstant(v: seq<real>, c: real)
    requires forall k :: 0 <= k < |v| ==> v[k] == c
    ensures Means(v) == v
  {
    forall n | 0 <= n < |v|
      ensures Means(v)[n] == v[n]
    {
      ConstantPrefix(v[..n + 1], c);
    }
  }

  /** Every running average lies between the smallest and largest sample. */
  lemma MeansWithinBounds(v: seq<real>, lo: real, hi: real)
    requires forall k :: 0 <= k < |v| ==> lo <= v[k] <= hi
    ensures forall n :: 0 <= n < |v| ==> lo <= Means(v)[n] <= hi
  {
    forall n | 0 <= n < |v|
      ensures lo <= Means(v)[n] <= hi
    {
      var k := (n + 1) as real;
      SumBounds(v[..n + 1], lo, hi);
      assert |v[..n + 1]| as real == k;
      MeanBetween(lo, hi, Sum(v[..n + 1]), k);
    }
  }

  /** Adding up the rate series recovers the raw series: the first difference
      and the prefix sum are inverse to each other. */
  lemma {:induction false} DiffTelescopes(v: seq<real>, n: nat)
    requires n < |v|
    ensures Sum(Diff(v)[..n + 1]) == v[n] - v[0]
  {
    var d := Diff(v);
    if n == 0 {
      assert d[..1] == [] + [0.0];
      SumSnoc([], 0.0);
    } else {
      DiffTelescopes(v, n - 1);
      assert d[..n + 1] == d[..n] + [v[n] - v[n - 1]];
      SumSnoc(d[..n], v[n] - v[n - 1]);
    }
  }

  /** The x-axis fill loop (Report.createReports, referenceData). */
  method ReferenceData(period: real, rows: nat) returns (xs: seq<real>)
    ensures xs == Axis(period, rows)
  {
    var a := new real[rows];
    for n := 0 to rows
      invariant forall k :: 0 <= k < n ==> a[k] == period * k as real
    {
      a[n] := period * n as real;
    }
    xs := a[..];
    assert forall k :: 0 <= k < rows ==> xs[k] == Axis(period, rows)[k];
  }

  /** Report.diffOperator: an empty input is returned as it is. */
  method DiffOperator(v: seq<real>) returns (d: seq<real>)
    ensures d == Diff(v)
  {
    if |v| == 0 {
      return v;
    }
    var a := new real[|v|];
    a[0] := 0.0;
    for n := 1 to |v|
      invariant a[0] == 0.0
      invariant forall k :: 1 <= k < n ==> a[k] == v[k] - v[k - 1]
    {
      a[n] := v[n] - v[n - 1];
    }
    d := a[..];
  }

  /** Report.runningAverage: None stands for the IllegalArgumentException thrown
      on an empty input. */
  method RunningAverage(v: seq<real>) returns (r: Option<seq<real>>)
    ensures r.None? <==> |v| == 0
    ensures r.Some? ==> r.value == Means(v)
  {
    if |v| == 0 {
      return None;
    }
    var a := new real[|v|];
    a[0] := v[0];
    MeansFirst(v);
    for n := 1 to |v|
      invariant forall k :: 0 <= k < n ==> a[k] == Means(v)[k]
    {
      a[n] := a[n - 1] + (v[n] - a[n - 1]) / (n + 1) as real;
      MeansStep(v, n);
    }
    r := Some(a[..]);
  }
}
