/**
  * Riemann-sum integration of a time profile: each row's intensity is the mean of
  * `samples` sub-samples taken uniformly across that row's time bin.
  */
module TimeIntegration {
  import opened Wrappers
  import opened Numerics
  import opened Axes

  /**
    * A time profile called on an array of times returns either an array of
    * intensities (`Curve`, applied elementwise) or one scalar (`Level`), which
    * NumPy broadcasts over every time.
    */
  datatype TimeProfile = Curve(at: real -> real) | Level(value: real)

  function Eval(p: TimeProfile, t: real): real {
    match p
    case Curve(f) => f(t)
    case Level(v) => v
  }

  /** The profile evaluated at each of `xs`. */
  function Sampled(p: TimeProfile, xs: seq<real>): (y: seq<real>)
    ensures |y| == |xs| && forall k :: 0 <= k < |xs| ==> y[k] == Eval(p, xs[k])
  {
    seq(|xs|, k requires 0 <= k < |xs| => Eval(p, xs[k]))
  }

  /** y[lo] + ... + y[hi - 1]; an empty or reversed range sums to zero, as Python's `range` is empty there. */
  function SumRange(y: seq<real>, lo: int, hi: int): real
    requires hi <= lo || (0 <= lo && hi <= |y|)
    decreases hi - lo
  {
    if hi <= lo then 0.0 else SumRange(y, lo, hi - 1) + y[hi - 1]
  }

  /** Whether the sub-samples of the first `rows` rows all lie inside `y`. */
  predicate Covers(y: seq<real>, rows: nat, samples: int) {
    samples < 0 || samples * rows <= |y|
  }

  /** The list `new_y`: for each row r, the sum of y over [samples*r, samples*(r+1)) divided by `samples`. */
  function RowMeans(y: seq<real>, rows: nat, samples: int): (m: seq<real>)
    requires samples != 0 && Covers(y, rows, samples)
    ensures |m| == rows
  {
    if rows == 0 then []
    else
      assert samples * rows == samples * (rows - 1) + samples;
      RowMeans(y, rows - 1, samples) + [SumRange(y, samples * (rows - 1), samples * rows) / samples as real]
  }

  /** The sub-sample times k * dt / samples, for k below `count`. */
  function SubSampleTimes(dt: real, samples: int, count: nat): (t: seq<real>)
    requires samples != 0
    ensures |t| == count && forall k :: 0 <= k < count ==> t[k] == k as real * dt / samples as real
  {
    seq(count, k requires 0 <= k < count => k as real * dt / samples as real)
  }

  /** How many sub-samples cover `n` bins: `samples` per bin, none when `samples` is negative. */
  function SubSampleCount(n: nat, samples: int): (count: nat)
    ensures 0 < samples ==> count == samples * n
  {
    if samples < 0 then 0 else samples * n
  }

  /** The per-row means of the profile over `n` bins, stated without reference to the time axis. */
  function SubSampleMeans(p: TimeProfile, dt: real, samples: int, n: nat): (m: seq<real>)
    requires samples != 0
    ensures |m| == n
  {
    RowMeans(Sampled(p, SubSampleTimes(dt, samples, SubSampleCount(n, samples))), n, samples)
  }

  /**
    * What the integrating branch computes for the per-row time intensities,
    * with the raise sites of the source: an empty time axis has no last sample,
    * and zero sub-samples divides by zero.  Otherwise row r is the mean of the
    * profile at the sub-sample times k * dt / samples, samples*r <= k < samples*(r+1).
    */
  function IntegratedRows(p: TimeProfile, ts: seq<real>, dt: real, samples: int): (r: Result<seq<real>, FrameError>)
    requires dt != 0.0 && ts == TimeAxis(dt, |ts|)
    ensures r == Err(EmptyTimeAxis) <==> |ts| == 0
    ensures r == Err(ZeroSamples) <==> |ts| > 0 && samples == 0
    ensures r.Ok? <==> 0 < |ts| && samples != 0
    ensures r.Ok? ==> r.value == SubSampleMeans(p, dt, samples, |ts|)
  {
    if |ts| == 0 then Err(EmptyTimeAxis)
    else if samples == 0 then Err(ZeroSamples)
    else
      var newTs := Arange(0.0, ts[|ts| - 1] + dt, dt / samples as real);
      LastBinEnd(ts, dt);
      SubSampleGrid(|ts|, ts[|ts| - 1] + dt, dt, samples);
      Ok(RowMeans(Sampled(p, newTs), |ts|, samples))
  }

  /** The last time bin ends `|ts|` steps after zero. */
  lemma LastBinEnd(ts: seq<real>, dt: real)
    requires dt != 0.0 && |ts| > 0 && ts == TimeAxis(dt, |ts|)
    ensures ts[|ts| - 1] + dt == |ts| as real * dt
  {
    assert ts[|ts| - 1] == (|ts| - 1) as real * dt;
  }

  /** The sub-sample grid over `n` bins holds `samples` points per bin (none when `samples` is negative). */
  lemma SubSampleGrid(n: nat, stop: real, dt: real, samples: int)
    requires dt != 0.0 && samples != 0 && n > 0 && stop == n as real * dt
    ensures Arange(0.0, stop, dt / samples as real) == SubSampleTimes(dt, samples, SubSampleCount(n, samples))
  {
    var step := dt / samples as real;
    StopIsWholeSteps(n, dt, samples);
    ArangeCount(0.0, n as real * dt, step, samples * n);
    var newTs := Arange(0.0, n as real * dt, step);
    var count := SubSampleCount(n, samples);
    if samples < 0 {
      NegativeProduct(samples, n);
    }
    assert |newTs| == count;
    forall k | 0 <= k < count ensures newTs[k] == SubSampleTimes(dt, samples, count)[k] {
      assert newTs[k] == 0.0 + k as real * step;
      StepScale(k, dt, samples);
    }
  }

  /** The end of the last time bin lies exactly `samples * n` sub-steps from zero. */
  lemma StopIsWholeSteps(n: int, dt: real, samples: int)
    requires samples != 0
    ensures n as real * dt == 0.0 + (samples * n) as real * (dt / samples as real)
  {
    var s := samples as real;
    assert (samples * n) as real == s * n as real;
    assert s * (dt / s) == dt;
    assert (s * n as real) * (dt / s) == n as real * (s * (dt / s));
  }

  lemma NegativeProduct(samples: int, n: int)
    requires samples < 0 && 0 < n
    ensures samples * n < 0
  {
  }

  lemma StepScale(k: int, dt: real, samples: int)
    requires samples != 0
    ensures 0.0 + k as real * (dt / samples as real) == k as real * dt / samples as real
  {
  }

  /** Row i's sub-sample range [samples*i, samples*(i+1)) lies inside the `samples * n` sub-samples. */
  lemma RowRange(samples: int, i: int, n: int)
    requires 0 < samples && 0 <= i < n
    ensures 0 <= samples * i && samples * (i + 1) == samples * i + samples && samples * (i + 1) <= samples * n
  {
  }

  /**
    * The integrating branch: evaluate the profile on the sub-sample grid
    * (repeating a scalar result), then average each row's sub-samples.
    */
  method IntegrateTime(p: TimeProfile, ts: seq<real>, dt: real, samples: int) returns (r: Result<seq<real>, FrameError>)
    requires dt != 0.0 && ts == TimeAxis(dt, |ts|)
    ensures r == IntegratedRows(p, ts, dt, samples)
  {
    if |ts| == 0 {
      return Err(EmptyTimeAxis);
    }
    if samples == 0 {
      return Err(ZeroSamples);
    }
    var newTs := Arange(0.0, ts[|ts| - 1] + dt, dt / samples as real);
    var y: seq<real>;
    match p {
      case Curve(f) =>
        y := seq(|newTs|, k requires 0 <= k < |newTs| => f(newTs[k]));
      case Level(v) =>
        y := seq(|newTs|, k => v);
    }
    assert y == Sampled(p, newTs);
    LastBinEnd(ts, dt);
    SubSampleGrid(|ts|, ts[|ts| - 1] + dt, dt, samples);
    var newY := AverageRows(y, |ts|, samples);
    r := Ok(newY);
  }

  /**
    * The nested loop that builds `new_y`: row i accumulates `tot` over
    * y[samples*i .. samples*(i+1)) and appends `tot / samples`.
    */
  method AverageRows(y: seq<real>, rows: nat, samples: int) returns (newY: seq<real>)
    requires samples != 0 && Covers(y, rows, samples)
    ensures newY == RowMeans(y, rows, samples)
  {
    newY := [];
    var i := 0;
    while i < rows
      invariant 0 <= i <= rows
      invariant newY == RowMeans(y, i, samples)
    {
      var lo, hi := samples * i, samples * (i + 1);
      if 0 < samples {
        RowRange(samples, i, rows);
      } else {
        assert hi == lo + samples;
      }
      var tot := 0.0;
      var j := lo;
      while j < hi
        invariant 0 < samples ==> lo <= j <= hi
        invariant samples < 0 ==> j == lo
        invariant tot == SumRange(y, lo, j)
      {
        tot := tot + y[j];
        j := j + 1;
      }
      newY := newY + [tot / samples as real];
      i := i + 1;
    }
  }

  /** Row r of RowMeans is the mean over its own sub-sample range. */
  lemma {:induction false} RowMeansAt(y: seq<real>, rows: nat, samples: int, r: nat)
    requires samples != 0 && Covers(y, rows, samples) && r < rows
    ensures samples * (r + 1) <= samples * r || (0 <= samples * r && samples * (r + 1) <= |y|)
    ensures RowMeans(y, rows, samples)[r] == SumRange(y, samples * r, samples * (r + 1)) / samples as real
  {
    assert samples * rows == samples * (rows - 1) + samples;
    if r < rows - 1 {
      RowMeansAt(y, rows - 1, samples, r);
    }
  }

  /** The sum of `hi - lo` copies of `v` is (hi - lo) * v. */
  lemma {:induction false} SumRangeOfConstant(y: seq<real>, lo: int, hi: int, v: real)
    requires 0 <= lo <= hi <= |y|
    requires forall j :: lo <= j < hi ==> y[j] == v
    ensures SumRange(y, lo, hi) == (hi - lo) as real * v
  {
    if lo < hi {
      SumRangeOfConstant(y, lo, hi - 1, v);
      var k := (hi - 1 - lo) as real;
      assert (hi - lo) as real == k + 1.0;
      assert (k + 1.0) * v == k * v + v;
    }
  }

  /** A sum of values in [low, high] lies in [(hi - lo) * low, (hi - lo) * high]. */
  lemma {:induction false} SumRangeWithin(y: seq<real>, lo: int, hi: int, low: real, high: real)
    requires 0 <= lo <= hi <= |y|
    requires forall j :: lo <= j < hi ==> low <= y[j] <= high
    ensures (hi - lo) as real * low <= SumRange(y, lo, hi) <= (hi - lo) as real * high
  {
    if lo < hi {
      SumRangeWithin(y, lo, hi - 1, low, high);
      var k := (hi - 1 - lo) as real;
      var prefix := SumRange(y, lo, hi - 1);
      assert SumRange(y, lo, hi) == prefix + y[hi - 1];
      assert k * low <= prefix <= k * high;
      assert low <= y[hi - 1] <= high;
      assert (hi - lo) as real * low == k * low + low;
      assert (hi - lo) as real * high == k * high + high;
    }
  }

  /** The sub-sample values the rows of SubSampleMeans average. */
  function SubSampleValues(p: TimeProfile, dt: real, samples: int, n: nat): seq<real>
    requires samples != 0
  {
    Sampled(p, SubSampleTimes(dt, samples, SubSampleCount(n, samples)))
  }

  /**
    * Row r of the integrated profile is the mean of the profile at the
    * sub-sample times k * dt / samples for samples*r <= k < samples*(r+1).
    */
  lemma SubSampleMeansAt(p: TimeProfile, dt: real, samples: int, n: nat, r: nat)
    requires 0 < samples && r < n
    ensures var y := SubSampleValues(p, dt, samples, n);
      0 <= samples * r && samples * (r + 1) == samples * r + samples && samples * (r + 1) <= |y| &&
      (forall k :: samples * r <= k < samples * (r + 1) ==> y[k] == Eval(p, k as real * dt / samples as real)) &&
      SubSampleMeans(p, dt, samples, n)[r] == SumRange(y, samples * r, samples * (r + 1)) / samples as real
  {
    RowRange(samples, r, n);
    var y := SubSampleValues(p, dt, samples, n);
    var times := SubSampleTimes(dt, samples, SubSampleCount(n, samples));
    forall k | samples * r <= k < samples * (r + 1) ensures y[k] == Eval(p, k as real * dt / samples as real) {
      assert y[k] == Eval(p, times[k]);
    }
    RowMeansAt(y, n, samples, r);
  }

  /** A scalar profile is repeated, so every row of its means is that scalar. */
  lemma LevelMeans(v: real, dt: real, samples: int, n: nat)
    requires 0 < samples
    ensures SubSampleMeans(Level(v), dt, samples, n) == seq(n, r => v)
  {
    var m := SubSampleMeans(Level(v), dt, samples, n);
    forall r | 0 <= r < n ensures m[r] == v {
      SubSampleMeansAt(Level(v), dt, samples, n, r);
      var y := SubSampleValues(Level(v), dt, samples, n);
      SumRangeOfConstant(y, samples * r, samples * (r + 1), v);
    }
  }

  /** Integrating a scalar time profile returns that scalar on every row. */
  lemma IntegratedLevel(v: real, ts: seq<real>, dt: real, samples: int)
    requires dt != 0.0 && ts == TimeAxis(dt, |ts|) && 0 < samples && 0 < |ts|
    ensures IntegratedRows(Level(v), ts, dt, samples) == Ok(seq(|ts|, r => v))
  {
    LevelMeans(v, dt, samples, |ts|);
  }

  /** Each row mean lies between bounds the profile respects at its sub-sample times. */
  lemma MeansWithin(p: TimeProfile, dt: real, samples: int, n: nat, low: real, high: real)
    requires 0 < samples
    requires forall t | t in SubSampleTimes(dt, samples, samples * n) :: low <= Eval(p, t) <= high
    ensures forall r :: 0 <= r < n ==> low <= SubSampleMeans(p, dt, samples, n)[r] <= high
  {
    var m := SubSampleMeans(p, dt, samples, n);
    forall r | 0 <= r < n ensures low <= m[r] <= high {
      SubSampleMeansAt(p, dt, samples, n, r);
      var y := SubSampleValues(p, dt, samples, n);
      var times := SubSampleTimes(dt, samples, samples * n);
      var lo := samples * r;
      forall j | lo <= j < lo + samples ensures low <= y[j] <= high {
        assert times[j] in times;
      }
      MeanWithin(y, lo, samples, low, high);
    }
  }

  /** The mean of `samples` values in [low, high] is in [low, high]. */
  lemma MeanWithin(y: seq<real>, lo: int, samples: int, low: real, high: real)
    requires 0 < samples && 0 <= lo && lo + samples <= |y|
    requires forall j :: lo <= j < lo + samples ==> low <= y[j] <= high
    ensures low <= SumRange(y, lo, lo + samples) / samples as real <= high
  {
    SumRangeWithin(y, lo, lo + samples, low, high);
  }

  /** With one sub-sample per bin, row r is the profile at the start of bin r, r * dt. */
  lemma SingleSampleMeans(p: TimeProfile, dt: real, n: nat)
    ensures SubSampleMeans(p, dt, 1, n) == seq(n, r => Eval(p, r as real * dt))
  {
    var m := SubSampleMeans(p, dt, 1, n);
    var expected := seq(n, r => Eval(p, r as real * dt));
    var y := SubSampleValues(p, dt, 1, n);
    forall r | 0 <= r < n ensures m[r] == expected[r] {
      SubSampleMeansAt(p, dt, 1, n, r);
      assert 1 * r == r && 1 * (r + 1) == r + 1;
      assert m[r] == SumRange(y, r, r + 1) / 1.0;
      assert SumRange(y, r, r + 1) == y[r];
      assert SubSampleTimes(dt, 1, SubSampleCount(n, 1))[r] == r as real * dt;
    }
  }

  /** A negative sub-sample count leaves every inner range empty, so every row is zero. */
  lemma NegativeSampleMeans(p: TimeProfile, dt: real, samples: int, n: nat)
    requires samples < 0
    ensures SubSampleMeans(p, dt, samples, n) == seq(n, r => 0.0)
  {
    var m := SubSampleMeans(p, dt, samples, n);
    forall r | 0 <= r < n ensures m[r] == 0.0 {
      RowMeansAt(SubSampleValues(p, dt, samples, n), n, samples, r);
      assert samples * (r + 1) == samples * r + samples;
    }
  }
}
