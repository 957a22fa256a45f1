/** The frequency and time axes of a frame. */
module Axes {
  import opened Numerics

  /** `np.arange(fch1, fch1 + fchans * df, df)`: one centre frequency per column. */
  function FrequencyAxis(fch1: real, df: real, fchans: nat): (fs: seq<real>)
    requires df != 0.0
    ensures |fs| == fchans
    ensures forall i :: 0 <= i < fchans ==> fs[i] == fch1 + i as real * df
  {
    ArangeCount(fch1, fch1 + fchans as real * df, df, fchans);
    Arange(fch1, fch1 + fchans as real * df, df)
  }

  /** `np.arange(0, tchans * dt, dt)`: one start time per row, beginning at zero. */
  function TimeAxis(dt: real, tchans: nat): (ts: seq<real>)
    requires dt != 0.0
    ensures |ts| == tchans
    ensures forall i :: 0 <= i < tchans ==> ts[i] == i as real * dt
  {
    ArangeCount(0.0, tchans as real * dt, dt, tchans);
    Arange(0.0, tchans as real * dt, dt)
  }

  /** Neighbouring columns are exactly `df` apart; with `df > 0` the axis ascends, with `df < 0` it descends. */
  lemma FrequencyAxisSpacing(fch1: real, df: real, fchans: nat, i: nat)
    requires df != 0.0 && i + 1 < fchans
    ensures var fs := FrequencyAxis(fch1, df, fchans);
      fs[i + 1] - fs[i] == df && (0.0 < df ==> fs[i] < fs[i + 1]) && (df < 0.0 ==> fs[i + 1] < fs[i])
  {
  }
}
