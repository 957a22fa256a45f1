/**
  * A frame: a tchans x fchans grid of intensities (rows are time samples,
  * columns frequency channels) with its frequency and time axes, onto which
  * noise and synthetic signals are added in place.
  */
module SetigenFrame {
  import opened Wrappers
  import opened Numerics
  import opened Grids
  import opened Axes
  import opened TimeIntegration

  /** The five geometry arguments, in pixels, Hz and seconds. */
  datatype Geometry = Geometry(fchans: nat, tchans: nat, df: real, dt: real, fch1: real)

  predicate AllGiven(fchans: Option<real>, tchans: Option<real>, df: Option<real>, dt: Option<real>, fch1: Option<real>) {
    fchans.Some? && tchans.Some? && df.Some? && dt.Some? && fch1.Some?
  }

  /**
    * The geometry branch of frame construction.  With all five arguments the
    * channel counts are truncated with int(); a negative count fails where
    * the zero grid is allocated, a zero resolution where an axis range is
    * built.  Without them the filterbank branch is taken when a file is
    * given (and fails reading the time axis before it exists), otherwise a
    * ValueError is raised.
    */
  function Configure(fchans: Option<real>, tchans: Option<real>, df: Option<real>, dt: Option<real>,
                     fch1: Option<real>, fil: bool): (r: Result<Geometry, FrameError>)
    ensures r == Err(MissingDimensions) <==> !AllGiven(fchans, tchans, df, dt, fch1) && !fil
    ensures r == Err(UnsetTimeAxis) <==> !AllGiven(fchans, tchans, df, dt, fch1) && fil
    ensures r == Err(NegativeDimensions) <==>
      AllGiven(fchans, tchans, df, dt, fch1) && (fchans.value <= -1.0 || tchans.value <= -1.0)
    ensures r == Err(ZeroStep) <==>
      AllGiven(fchans, tchans, df, dt, fch1) && -1.0 < fchans.value && -1.0 < tchans.value &&
      (df.value == 0.0 || dt.value == 0.0)
    ensures r.Ok? <==>
      AllGiven(fchans, tchans, df, dt, fch1) && -1.0 < fchans.value && -1.0 < tchans.value &&
      df.value != 0.0 && dt.value != 0.0
    ensures r.Ok? ==>
      r.value.df != 0.0 && r.value.dt != 0.0 &&
      r.value == Geometry(Trunc(fchans.value), Trunc(tchans.value), df.value, dt.value, fch1.value)
  {
    if AllGiven(fchans, tchans, df, dt, fch1) then
      var f, t := Trunc(fchans.value), Trunc(tchans.value);
      if f < 0 || t < 0 then Err(NegativeDimensions)
      else if df.value == 0.0 || dt.value == 0.0 then Err(ZeroStep)
      else Ok(Geometry(f, t, df.value, dt.value, fch1.value))
    else if fil then Err(UnsetTimeAxis)
    else Err(MissingDimensions)
  }

  // ---------------------------------------------------------------- noise

  /** A noise parameter: one value, or an array of candidate values sampled from observations. */
  datatype Param = Scalar(x: real) | Values(xs: seq<real>)

  /** A request to the distributions collaborator for a grid of the given shape. */
  datatype Draw =
    | Gaussian(mean: Param, std: Param, rows: nat, cols: nat)
    | TruncatedGaussian(mean: Param, std: Param, min: Param, rows: nat, cols: nat)

  /** The collaborator honours the requested shape. */
  ghost predicate Fits(draw: Draw -> Grid, d: Draw) {
    IsGrid(draw(d), d.rows, d.cols)
  }

  /**
    * The draw `add_noise` requests: `x_min` is tested for truthiness, so a
    * missing minimum and a minimum of 0 both give the plain Gaussian.
    */
  function NoiseDraw(xMean: real, xStd: real, xMin: Option<real>, rows: nat, cols: nat): (d: Draw)
    ensures d.TruncatedGaussian? <==> xMin.Some? && xMin.value != 0.0
    ensures d.mean == Scalar(xMean) && d.std == Scalar(xStd) && d.rows == rows && d.cols == cols
    ensures d.TruncatedGaussian? ==> d.min == Scalar(xMin.value)
  {
    if xMin.Some? && xMin.value != 0.0 then TruncatedGaussian(Scalar(xMean), Scalar(xStd), Scalar(xMin.value), rows, cols)
    else Gaussian(Scalar(xMean), Scalar(xStd), rows, cols)
  }

  /**
    * The draw `add_noise_obs` requests: the minimum array is tested for
    * truthiness, so a missing or empty array gives the plain Gaussian.
    */
  function ObsNoiseDraw(xMeans: seq<real>, xStds: seq<real>, xMins: Option<seq<real>>, rows: nat, cols: nat): (d: Draw)
    ensures d.TruncatedGaussian? <==> xMins.Some? && |xMins.value| > 0
    ensures d.mean == Values(xMeans) && d.std == Values(xStds) && d.rows == rows && d.cols == cols
    ensures d.TruncatedGaussian? ==> d.min == Values(xMins.value)
  {
    if xMins.Some? && |xMins.value| > 0 then TruncatedGaussian(Values(xMeans), Values(xStds), Values(xMins.value), rows, cols)
    else Gaussian(Values(xMeans), Values(xStds), rows, cols)
  }

  /** A zero minimum is not a truncation: it draws exactly what no minimum draws. */
  lemma ZeroMinimumIgnored(xMean: real, xStd: real, rows: nat, cols: nat)
    ensures NoiseDraw(xMean, xStd, Some(0.0), rows, cols) == NoiseDraw(xMean, xStd, None, rows, cols)
    ensures NoiseDraw(xMean, xStd, None, rows, cols).Gaussian?
  {
  }

  // ---------------------------------------------------------------- signal

  /** `t_profile(ts - dt/2)`: the time profile half a bin before each row's time. */
  function DirectRows(p: TimeProfile, ts: seq<real>, dt: real): (rows: seq<real>)
    ensures |rows| == |ts|
  {
    seq(|ts|, r requires 0 <= r < |ts| => Eval(p, ts[r] - dt / 2.0))
  }

  /** `path(ts)`: the signal's centre frequency at each row's time. */
  function PathCentres(path: real -> real, ts: seq<real>): (centres: seq<real>)
    ensures |centres| == |ts|
  {
    seq(|ts|, r requires 0 <= r < |ts| => path(ts[r]))
  }

  /** The meshgrid product t_profile[row] * f_profile(f, path[row]) * bp_profile(f) over all columns. */
  function Compose(rows: seq<real>, centres: seq<real>, fs: seq<real>,
                   fProfile: (real, real) -> real, bpProfile: real -> real): (g: Grid)
    requires |rows| == |centres|
    ensures IsGrid(g, |rows|, |fs|)
  {
    seq(|rows|, r requires 0 <= r < |rows| =>
      seq(|fs|, c requires 0 <= c < |fs| => rows[r] * fProfile(fs[c], centres[r]) * bpProfile(fs[c])))
  }

  /**
    * The signal `add_signal` computes, before it is added to the grid: a
    * grid of the frame's shape, or the error the integrating branch raises.
    */
  function Signal(fs: seq<real>, ts: seq<real>, dt: real, path: real -> real, tProfile: TimeProfile,
                  fProfile: (real, real) -> real, bpProfile: real -> real,
                  integrateTime: bool, samples: int): (r: Result<Grid, FrameError>)
    requires dt != 0.0 && ts == TimeAxis(dt, |ts|)
    ensures r.Ok? ==> IsGrid(r.value, |ts|, |fs|)
    ensures r.Err? <==> integrateTime && (|ts| == 0 || samples == 0)
  {
    var rows :- if integrateTime then IntegratedRows(tProfile, ts, dt, samples) else Ok(DirectRows(tProfile, ts, dt));
    Ok(Compose(rows, PathCentres(path, ts), fs, fProfile, bpProfile))
  }

  /**
    * Without integration, cell (r, c) is the time profile at r*dt - dt/2, times the
    * frequency profile at column c's frequency around the path at r*dt, times the
    * bandpass at that frequency.
    */
  lemma DirectSignalCell(g: Geometry, path: real -> real, tProfile: TimeProfile,
                         fProfile: (real, real) -> real, bpProfile: real -> real, samples: int, r: nat, c: nat)
    requires g.df != 0.0 && g.dt != 0.0 && r < g.tchans && c < g.fchans
    ensures var s := Signal(FrequencyAxis(g.fch1, g.df, g.fchans), TimeAxis(g.dt, g.tchans), g.dt,
                            path, tProfile, fProfile, bpProfile, false, samples);
      var f := g.fch1 + c as real * g.df;
      s.Ok? && s.value[r][c] == Eval(tProfile, r as real * g.dt - g.dt / 2.0) * fProfile(f, path(r as real * g.dt)) * bpProfile(f)
  {
    var fs, ts := FrequencyAxis(g.fch1, g.df, g.fchans), TimeAxis(g.dt, g.tchans);
    var rows := DirectRows(tProfile, ts, g.dt);
    var centres := PathCentres(path, ts);
    var grid := Compose(rows, centres, fs, fProfile, bpProfile);
    assert Signal(fs, ts, g.dt, path, tProfile, fProfile, bpProfile, false, samples) == Ok(grid);
    assert grid[r][c] == rows[r] * fProfile(fs[c], centres[r]) * bpProfile(fs[c]);
    assert rows[r] == Eval(tProfile, ts[r] - g.dt / 2.0) && centres[r] == path(ts[r]);
    assert ts[r] == r as real * g.dt && fs[c] == g.fch1 + c as real * g.df;
  }

  /**
    * With integration (samples > 0), cell (r, c) is row r's sub-sample mean of the
    * time profile, times the frequency and bandpass profiles as without integration.
    */
  lemma IntegratedSignalCell(g: Geometry, path: real -> real, tProfile: TimeProfile,
                             fProfile: (real, real) -> real, bpProfile: real -> real, samples: int, r: nat, c: nat)
    requires g.df != 0.0 && g.dt != 0.0 && 0 < samples && r < g.tchans && c < g.fchans
    ensures var s := Signal(FrequencyAxis(g.fch1, g.df, g.fchans), TimeAxis(g.dt, g.tchans), g.dt,
                            path, tProfile, fProfile, bpProfile, true, samples);
      var f := g.fch1 + c as real * g.df;
      s.Ok? && s.value[r][c] == SubSampleMeans(tProfile, g.dt, samples, g.tchans)[r] * fProfile(f, path(r as real * g.dt)) * bpProfile(f)
  {
    var fs, ts := FrequencyAxis(g.fch1, g.df, g.fchans), TimeAxis(g.dt, g.tchans);
    var rows := SubSampleMeans(tProfile, g.dt, samples, g.tchans);
    assert IntegratedRows(tProfile, ts, g.dt, samples) == Ok(rows);
    var centres := PathCentres(path, ts);
    var grid := Compose(rows, centres, fs, fProfile, bpProfile);
    assert Signal(fs, ts, g.dt, path, tProfile, fProfile, bpProfile, true, samples) == Ok(grid);
    assert grid[r][c] == rows[r] * fProfile(fs[c], centres[r]) * bpProfile(fs[c]);
    assert centres[r] == path(ts[r]);
    assert ts[r] == r as real * g.dt && fs[c] == g.fch1 + c as real * g.df;
  }

  /** A scalar time profile gives the same signal whether or not time is integrated. */
  lemma LevelSignalIntegrationInvariant(g: Geometry, path: real -> real, v: real,
                                        fProfile: (real, real) -> real, bpProfile: real -> real, samples: int)
    requires g.df != 0.0 && g.dt != 0.0 && 0 < samples && 0 < g.tchans
    ensures var fs, ts := FrequencyAxis(g.fch1, g.df, g.fchans), TimeAxis(g.dt, g.tchans);
      Signal(fs, ts, g.dt, path, Level(v), fProfile, bpProfile, true, samples)
        == Signal(fs, ts, g.dt, path, Level(v), fProfile, bpProfile, false, samples)
  {
    var ts := TimeAxis(g.dt, g.tchans);
    IntegratedLevel(v, ts, g.dt, samples);
    assert DirectRows(Level(v), ts, g.dt) == seq(|ts|, r => v);
  }

  // ---------------------------------------------------------------- the frame

  class Frame {
    const fchans: nat
    const tchans: nat
    const df: real
    const dt: real
    const fch1: real
    const fs: seq<real>
    const ts: seq<real>
    const data: array2<real>

    /** The grid has shape (tchans, fchans) and the axes are derived from the geometry. */
    ghost predicate Valid() {
      df != 0.0 && dt != 0.0 &&
      data.Length0 == tchans && data.Length1 == fchans &&
      fs == FrequencyAxis(fch1, df, fchans) && ts == TimeAxis(dt, tchans)
    }

    /** The grid's current intensities, row by row. */
    ghost function Contents(): (g: Grid)
      reads data
      ensures IsGrid(g, data.Length0, data.Length1)
    {
      seq(data.Length0, r requires 0 <= r < data.Length0 reads data =>
        seq(data.Length1, c requires 0 <= c < data.Length1 reads data => data[r, c]))
    }

    /** A blank frame: an all-zero grid of tchans x fchans with its axes. */
    constructor (g: Geometry)
      requires g.df != 0.0 && g.dt != 0.0
      ensures Valid() && fresh(data)
      ensures fchans == g.fchans && tchans == g.tchans && df == g.df && dt == g.dt && fch1 == g.fch1
      ensures Contents() == ZeroGrid(g.tchans, g.fchans)
    {
      fchans, tchans, df, dt, fch1 := g.fchans, g.tchans, g.df, g.dt, g.fch1;
      data := new real[g.tchans, g.fchans]((r, c) => 0.0);
      fs := FrequencyAxis(g.fch1, g.df, g.fchans);
      ts := TimeAxis(g.dt, g.tchans);
      new;
      assert Contents() == ZeroGrid(g.tchans, g.fchans) by {
        var z := ZeroGrid(g.tchans, g.fchans);
        forall r | 0 <= r < g.tchans ensures Contents()[r] == z[r] {
          assert |Contents()[r]| == |z[r]|;
        }
      }
    }

    /** Frame construction from optional geometry arguments, failing as Configure does. */
    static method Create(fchans: Option<real>, tchans: Option<real>, df: Option<real>, dt: Option<real>,
                         fch1: Option<real>, fil: bool) returns (r: Result<Frame, FrameError>)
      ensures r.Err? <==> Configure(fchans, tchans, df, dt, fch1, fil).Err?
      ensures r.Err? ==> r.error == Configure(fchans, tchans, df, dt, fch1, fil).error
      ensures r.Ok? ==> var f := r.value;
        fresh(f.data) && f.Valid() &&
        Configure(fchans, tchans, df, dt, fch1, fil) == Ok(Geometry(f.fchans, f.tchans, f.df, f.dt, f.fch1)) &&
        f.Contents() == ZeroGrid(f.tchans, f.fchans)
    {
      var g := Configure(fchans, tchans, df, dt, fch1, fil);
      if g.Err? {
        return Err(g.error);
      }
      var f := new Frame(g.value);
      r := Ok(f);
    }

    /** `self.data += g`: every cell grows by the matching cell of `g`. */
    method Accumulate(g: Grid)
      requires Valid() && IsGrid(g, tchans, fchans)
      modifies data
      ensures Contents() == AddGrids(old(Contents()), g)
    {
      forall r, c | 0 <= r < data.Length0 && 0 <= c < data.Length1 {
        data[r, c] := data[r, c] + g[r][c];
      }
      assert Contents() == AddGrids(old(Contents()), g) by {
        var s := AddGrids(old(Contents()), g);
        forall r | 0 <= r < tchans ensures Contents()[r] == s[r] {
          assert |Contents()[r]| == |s[r]|;
        }
      }
    }

    /** Adds one noise draw of the grid's shape to the grid and returns it. */
    method AddNoise(xMean: real, xStd: real, xMin: Option<real>, draw: Draw -> Grid) returns (noise: Grid)
      requires Valid() && Fits(draw, NoiseDraw(xMean, xStd, xMin, tchans, fchans))
      modifies data
      ensures noise == draw(NoiseDraw(xMean, xStd, xMin, tchans, fchans))
      ensures IsGrid(noise, tchans, fchans)
      ensures Contents() == AddGrids(old(Contents()), noise)
    {
      noise := draw(NoiseDraw(xMean, xStd, xMin, tchans, fchans));
      Accumulate(noise);
    }

    /** Adds one noise draw parameterised by observation arrays to the grid and returns it. */
    method AddNoiseObs(xMeans: seq<real>, xStds: seq<real>, xMins: Option<seq<real>>, draw: Draw -> Grid)
      returns (noise: Grid)
      requires Valid() && Fits(draw, ObsNoiseDraw(xMeans, xStds, xMins, tchans, fchans))
      modifies data
      ensures noise == draw(ObsNoiseDraw(xMeans, xStds, xMins, tchans, fchans))
      ensures IsGrid(noise, tchans, fchans)
      ensures Contents() == AddGrids(old(Contents()), noise)
    {
      noise := draw(ObsNoiseDraw(xMeans, xStds, xMins, tchans, fchans));
      Accumulate(noise);
    }

    /**
      * Computes the signal from the path and the profiles, adds it to the grid
      * and returns it; on a blank frame the grid afterwards equals the signal.
      */
    method AddSignal(path: real -> real, tProfile: TimeProfile, fProfile: (real, real) -> real,
                     bpProfile: real -> real, integrateTime: bool, samples: int)
      returns (r: Result<Grid, FrameError>)
      requires Valid()
      modifies data
      ensures r == Signal(fs, ts, dt, path, tProfile, fProfile, bpProfile, integrateTime, samples)
      ensures r.Ok? ==> Contents() == AddGrids(old(Contents()), r.value)
      ensures r.Ok? && old(Contents()) == ZeroGrid(tchans, fchans) ==> Contents() == r.value
      ensures r.Err? ==> Contents() == old(Contents())
    {
      var rows: seq<real>;
      if integrateTime {
        var integrated := IntegrateTime(tProfile, ts, dt, samples);
        if integrated.Err? {
          return Err(integrated.error);
        }
        rows := integrated.value;
      } else {
        rows := DirectRows(tProfile, ts, dt);
      }
      var signal := Compose(rows, PathCentres(path, ts), fs, fProfile, bpProfile);
      Accumulate(signal);
      AddOntoZero(signal, tchans, fchans);
      r := Ok(signal);
    }
  }
}
