/** The statistics block written for each charted category (Report.writeStatsToFile).
    The accumulation loop is kept exactly as the source has it: values[0] seeds
    min, max and the average, the loop folds values[1..] into min, max, sum, the
    average and the stdev recurrence, and the reported sample count is the number
    of folded values. */
module Statistics {
  import opened Wrappers
  import opened Series
  import opened Categories

  /** The six reported metrics, with the sanitised category name and the unit. */
  datatype Stats = Stats(category: string, unit: string, samples: int,
                         sum: real, min: real, max: real, average: real, stdev: real)

  function MinOf(s: seq<real>): (m: real)
    requires |s| > 0
    ensures m in s
    ensures forall k :: 0 <= k < |s| ==> m <= s[k]
  {
    if |s| == 1 then s[0]
    else
      var m := MinOf(s[..|s| - 1]);
      if s[|s| - 1] < m then s[|s| - 1] else m
  }

  function MaxOf(s: seq<real>): (m: real)
    requires |s| > 0
    ensures m in s
    ensures forall k :: 0 <= k < |s| ==> s[k] <= m
  {
    if |s| == 1 then s[0]
    else
      var m := MaxOf(s[..|s| - 1]);
      if s[|s| - 1] > m then s[|s| - 1] else m
  }

  /** The average after k iterations of the loop, by the loop's own update:
      the seed v[0], then (previous * (k - 1) + v[k]) / k. */
  function MeanAt(v: seq<real>, k: nat): real
    requires k < |v|
  {
    if k == 0 then v[0] else (MeanAt(v, k - 1) * (k - 1) as real + v[k]) / k as real
  }

  /** The stdev after k iterations, by the source's recurrence over the change of
      the average: 2 d^2 at the first folded value, then
      (1 - 1/(k-1)) * previous + k d^2. */
  function StdevAt(v: seq<real>, k: nat): real
    requires k < |v|
  {
    if k == 0 then 0.0
    else
      var d := MeanAt(v, k) - MeanAt(v, k - 1);
      if k == 1 then 2.0 * d * d
      else (1.0 - 1.0 / (k - 1) as real) * StdevAt(v, k - 1) + k as real * d * d
  }

  /** What the block reports for a non-empty vector. */
  function StatsOf(category: string, unit: string, v: seq<real>): Stats
    requires |v| > 0
  {
    Stats(Sanitize(category), unit, |v| - 1, Sum(v[1..]), MinOf(v), MaxOf(v),
          MeanAt(v, |v| - 1), StdevAt(v, |v| - 1))
  }

  /** After k >= 1 iterations the average is the arithmetic mean of the folded
      values v[1..k]: the seed v[0] is dropped by the first update. */
  lemma {:induction false} MeanAtIsMean(v: seq<real>, k: nat)
    requires 1 <= k < |v|
    ensures MeanAt(v, k) == Sum(v[1..k + 1]) / k as real
  {
    assert v[1..k + 1] == v[1..k] + [v[k]];
    SumSnoc(v[1..k], v[k]);
    if k == 1 {
      assert v[1..1] == [];
    } else {
      MeanAtIsMean(v, k - 1);
      MeanExtend(Sum(v[1..k]), v[k], (k - 1) as real, k as real, MeanAt(v, k - 1));
    }
  }

  /** The loop's update of a mean of j values by one more value x. */
  lemma MeanExtend(s: real, x: real, j: real, k: real, previous: real)
    requires j > 0.0 && k == j + 1.0 && previous == s / j
    ensures (previous * j + x) / k == (s + x) / k
  {
    assert previous * j == s;
  }

  lemma {:induction false} MeanAtConstant(v: seq<real>, c: real, k: nat)
    requires k < |v|
    requires forall i :: 0 <= i < |v| ==> v[i] == c
    ensures MeanAt(v, k) == c
  {
    if k > 0 {
      MeanAtConstant(v, c, k - 1);
      var j := (k - 1) as real;
      assert c * j + c == c * k as real;
    }
  }

  /** One step of the stdev recurrence keeps it non-negative. */
  lemma RecurrenceNonNegative(k: nat, s: real, d: real)
    requires k >= 2 && s >= 0.0
    ensures (1.0 - 1.0 / (k - 1) as real) * s + k as real * d * d >= 0.0
  {
    var c := 1.0 - 1.0 / (k - 1) as real;
    assert c >= 0.0;
    assert c * s >= 0.0;
    assert d * d >= 0.0;
    assert k as real * d * d == k as real * (d * d);
  }

  /** The recurrence never produces a negative stdev. */
  lemma {:induction false} StdevNonNegative(v: seq<real>, k: nat)
    requires k < |v|
    ensures StdevAt(v, k) >= 0.0
  {
    if k > 0 {
      var d := MeanAt(v, k) - MeanAt(v, k - 1);
      if k == 1 {
        assert d * d >= 0.0;
      } else {
        StdevNonNegative(v, k - 1);
        RecurrenceNonNegative(k, StdevAt(v, k - 1), d);
      }
    }
  }

  /** A constant vector has a zero stdev. */
  lemma {:induction false} StdevConstant(v: seq<real>, c: real, k: nat)
    requires k < |v|
    requires forall i :: 0 <= i < |v| ==> v[i] == c
    ensures StdevAt(v, k) == 0.0
  {
    if k > 0 {
      MeanAtConstant(v, c, k);
      MeanAtConstant(v, c, k - 1);
      var d := MeanAt(v, k) - MeanAt(v, k - 1);
      assert d == 0.0;
      if k > 1 {
        StdevConstant(v, c, k - 1);
        assert StdevAt(v, k) == (1.0 - 1.0 / (k - 1) as real) * 0.0 + k as real * d * d;
      }
    }
  }

  /** One iteration of the loop on min, max and sum. */
  lemma FoldStep(v: seq<real>, n: nat)
    requires 1 <= n < |v|
    ensures MinOf(v[..n + 1]) == if v[n] < MinOf(v[..n]) then v[n] else MinOf(v[..n])
    ensures MaxOf(v[..n + 1]) == if v[n] > MaxOf(v[..n]) then v[n] else MaxOf(v[..n])
    ensures Sum(v[1..n + 1]) == Sum(v[1..n]) + v[n]
  {
    assert v[..n + 1][..n] == v[..n];
    assert v[1..n + 1] == v[1..n] + [v[n]];
    SumSnoc(v[1..n], v[n]);
  }

  /** One iteration of the loop on the average. */
  lemma AverageUpdate(v: seq<real>, k: nat, oldAverage: real, average: real)
    requires 1 <= k < |v| && oldAverage == MeanAt(v, k - 1)
    requires average == (oldAverage * (k - 1) as real + v[k]) / k as real
    ensures average == MeanAt(v, k)
  {
  }

  /** One iteration of the loop on the stdev. */
  lemma StdevUpdate(v: seq<real>, k: nat, diffAvg: real, oldStdev: real, stdev: real)
    requires 1 <= k < |v|
    requires diffAvg == MeanAt(v, k) - MeanAt(v, k - 1) && oldStdev == StdevAt(v, k - 1)
    requires stdev == if k == 1 then 2.0 * diffAvg * diffAvg
                      else (1.0 - 1.0 / (k - 1) as real) * oldStdev + k as real * diffAvg * diffAvg
    ensures stdev == StdevAt(v, k)
  {
  }

  /** What each reported metric means. */
  lemma StatsMeaning(category: string, unit: string, v: seq<real>)
    requires |v| > 0
    ensures var s := StatsOf(category, unit, v);
      && s.samples == |v| - 1
      && s.sum == Sum(v[1..])
      && s.min in v && (forall k :: 0 <= k < |v| ==> s.min <= v[k])
      && s.max in v && (forall k :: 0 <= k < |v| ==> v[k] <= s.max)
      && s.average == (if |v| == 1 then v[0] else Sum(v[1..]) / (|v| - 1) as real)
      && s.stdev >= 0.0
      && AllAlphanumeric(s.category)
  {
    assert v[1..|v|] == v[1..];
    if |v| > 1 {
      MeanAtIsMean(v, |v| - 1);
    }
    StdevNonNegative(v, |v| - 1);
  }

  /** On a constant vector min, max and average are that constant and the stdev
      is zero. */
  lemma StatsOfConstant(category: string, unit: string, v: seq<real>, c: real)
    requires |v| > 0
    requires forall i :: 0 <= i < |v| ==> v[i] == c
    ensures var s := StatsOf(category, unit, v);
      s.min == c && s.max == c && s.average == c && s.stdev == 0.0
  {
    MeanAtConstant(v, c, |v| - 1);
    StdevConstant(v, c, |v| - 1);
  }

  /** The loop's update of the average and of the stdev by the sample at
      index samples (Report.writeStatsToFile, loop body). */
  method FoldMoments(values: seq<real>, samples: nat, average: real, stdev: real)
    returns (newAverage: real, newStdev: real)
    requires 1 <= samples < |values|
    requires average == MeanAt(values, samples - 1) && stdev == StdevAt(values, samples - 1)
    ensures newAverage == MeanAt(values, samples) && newStdev == StdevAt(values, samples)
  {
    var d := values[samples];
    var oldAverage := average;
    newAverage := (oldAverage * (samples - 1) as real + d) / samples as real;
    AverageUpdate(values, samples, oldAverage, newAverage);
    var diffAvg := newAverage - oldAverage;
    if samples == 1 {
      newStdev := 2.0 * diffAvg * diffAvg;
    } else {
      newStdev := ((1.0 - 1.0 / (samples - 1) as real) * stdev) + samples as real * diffAvg * diffAvg;
    }
    StdevUpdate(values, samples, diffAvg, stdev, newStdev);
  }

  /** Report.writeStatsToFile with the output stream reduced to whether it is
      open. None: the early return on no values or no stream, nothing written. */
  method WriteStatsToFile(category: string, unit: string, values: seq<real>, streamOpen: bool)
    returns (r: Option<Stats>)
    ensures r.None? <==> (|values| == 0 || !streamOpen)
    ensures r.Some? ==> r.value == StatsOf(category, unit, values)
  {
    if |values| == 0 || !streamOpen {
      return None;
    }
    var min := values[0];
    var max := values[0];
    var average := values[0];
    var stdev := 0.0;
    var sum := 0.0;
    var samples := 1;
    assert values[..1] == [values[0]];
    assert values[1..1] == [];
    while samples < |values|
      invariant 1 <= samples <= |values|
      invariant min == MinOf(values[..samples])
      invariant max == MaxOf(values[..samples])
      invariant sum == Sum(values[1..samples])
      invariant average == MeanAt(values, samples - 1)
      invariant stdev == StdevAt(values, samples - 1)
    {
      var d := values[samples];
      FoldStep(values, samples);
      if d < min {
        min := d;
      }
      if d > max {
        max := d;
      }
      sum := sum + d;
      average, stdev := FoldMoments(values, samples, average, stdev);
      samples := samples + 1;
    }
    assert values[..samples] == values;
    assert values[1..samples] == values[1..];
    r := Some(Stats(Sanitize(category), unit, samples - 1, sum, min, max, average, stdev));
  }
}
