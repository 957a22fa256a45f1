# setigen Frame, modelled in Dafny

This project models the `Frame` class of setigen (`setigen/frame.py`). A frame is a
`tchans x fchans` grid of radio intensities: rows are time samples and columns are
frequency channels. The frame also holds a frequency axis `fs` and a time axis `ts`.
Its methods add noise and synthetic narrowband signals to the grid in place. They
only ever add; they never overwrite a cell.

Floats are modelled as Dafny `real`, so all arithmetic is exact.

Layout:

- `wrappers.dfy` (`Wrappers`): `Option`, `Result`, and `FrameError`. `FrameError` has one
  constructor for each exception the modelled code raises.
- `numerics.dfy` (`Numerics`): Python's `int()` on a float (`Trunc`) and `np.arange` (`Arange`).
- `grids.dfy` (`Grids`): grids as `seq<seq<real>>`, the all-zero grid, and elementwise addition.
- `axes.dfy` (`Axes`): the frequency axis `fch1 + i*df` and the time axis `i*dt`, both built with `np.arange`.
- `integration.dfy` (`TimeIntegration`): the `integrate_time` branch of `add_signal`. It samples
  the time profile on a sub-sample grid, then a nested loop averages `samples`
  sub-samples per row. The loop is proved against the function `RowMeans`.
- `frame.dfy` (`SetigenFrame`): construction (`Configure`, `Frame.Create`), the noise requests,
  the signal formula (`Signal`), and the `Frame` class.
  - The class's grid is an `array2<real>`.
  - `AddNoise`, `AddNoiseObs` and `AddSignal` update the grid in place through `Accumulate`.
  - `Contents()` is the grid's value.

Profiles are function-typed parameters: `path` and `bp_profile` are `real -> real`, and
`f_profile` is `(real, real) -> real`. A time profile is either a `Curve` (an elementwise
function) or a `Level` (a callable that returns one scalar). The source tells these apart
only in the integrating branch, where it repeats a scalar result. The random draws from
`distributions` are a function `draw: Draw -> Grid` that the caller passes in. `Draw` records
which distribution was asked for, its parameters, and the shape.

Behaviours of `setigen/frame.py` worth knowing, which the model keeps:

- `add_noise` tests `x_min` for truthiness, so `x_min = 0` requests the plain Gaussian, as
  if no minimum were passed (`NoiseDraw`, `ZeroMinimumIgnored`).
- `df` may be negative; the frequency axis then descends from `fch1`
  (`FrequencyAxisSpacing`).
- Channel counts of zero are accepted; only counts of -1 or below and zero resolutions
  fail.

## Model

| member | source | states |
|---|---|---|
| `Numerics.Trunc` | setigen/frame.py:28-32 | `int()` truncates toward zero: the result is within 1 of its input, on the same side of zero |
| `Numerics.ArangeWithin` | setigen/frame.py:57-64 | every `np.arange` entry lies in the half-open interval from `start` toward `stop`, and one more step would reach or pass `stop` |
| `Numerics.ArangeCount` | setigen/frame.py:57-64 | a range whose stop is exactly `count` steps from `start` has `count` entries (none if `count` is negative) |
| `Axes.FrequencyAxis` | setigen/frame.py:57-60 | `fs` has exactly `fchans` entries and `fs[i] = fch1 + i*df` |
| `Axes.TimeAxis` | setigen/frame.py:61-64 | `ts` has exactly `tchans` entries and `ts[i] = i*dt` |
| `Axes.FrequencyAxisSpacing` | setigen/frame.py:57-60 | neighbouring channels are `df` apart; the axis ascends for `df > 0` and descends for `df < 0` |
| `SetigenFrame.Configure` | setigen/frame.py:25-53 | construction succeeds exactly when all five geometry arguments are given, both counts exceed -1 and `df`, `dt` are non-zero, and then gives the geometry with truncated channel counts. A missing one gives the ValueError without a filterbank file, and the failing filterbank branch with one. A count of -1 or below fails the grid allocation. A zero `df` or `dt` fails the axis range |
| `SetigenFrame.Frame.constructor` | setigen/frame.py:25-39 | a valid geometry yields a fresh all-zero `tchans x fchans` grid with axes derived from it |
| `SetigenFrame.Frame.Create` | setigen/frame.py:17-64 | construction succeeds exactly when `Configure` does, fails with the same error otherwise, and on success holds the all-zero grid of the configured shape |
| `SetigenFrame.NoiseDraw` | setigen/frame.py:67-79 | the truncated Gaussian is requested exactly when `x_min` is present and non-zero. The mean, std and grid shape are passed through, and so is the minimum when truncating |
| `SetigenFrame.ZeroMinimumIgnored` | setigen/frame.py:71-79 | `x_min = 0` requests the same plain Gaussian as no `x_min` |
| `SetigenFrame.Frame.AddNoise` | setigen/frame.py:67-81 | the returned noise is the draw `NoiseDraw` requests, of the grid's shape, and the new grid is the old grid plus that noise |
| `SetigenFrame.ObsNoiseDraw` | setigen/frame.py:84-96 | the truncated Gaussian is requested exactly when the minimum array is present and non-empty; the parameter arrays and shape are passed through |
| `SetigenFrame.Frame.AddNoiseObs` | setigen/frame.py:84-98 | the returned noise is the draw `ObsNoiseDraw` requests, of the grid's shape, and the new grid is the old grid plus that noise |
| `SetigenFrame.Frame.Accumulate` | setigen/frame.py:202 | in-place `+=`: the new grid is the old grid plus the added grid, cell by cell |
| `TimeIntegration.IntegratedRows` | setigen/frame.py:174-185 | integration fails with IndexError on an empty time axis and with ZeroDivisionError for zero samples, and succeeds in every other case. On success it gives one value per row, and row r is the mean of the profile at the sub-sample times |
| `TimeIntegration.SubSampleGrid` | setigen/frame.py:175 | the sub-sample grid over n bins is `k*dt/samples` for k below `samples*n`, and empty when `samples` is negative |
| `TimeIntegration.IntegrateTime` | setigen/frame.py:174-185 | the integrating branch, with a scalar profile repeated, computes exactly `IntegratedRows`, including its errors |
| `TimeIntegration.AverageRows` | setigen/frame.py:179-184 | the nested loop appends, for each row i, the sum of `y[samples*i .. samples*(i+1))` divided by `samples` |
| `TimeIntegration.RowMeansAt` | setigen/frame.py:179-184 | row r of the averaged list is the sum over its own sub-sample range divided by `samples`, and that range lies inside `y` |
| `TimeIntegration.SubSampleMeansAt` | setigen/frame.py:175-184 | with samples > 0, row r is the sum of the profile at `k*dt/samples`, for `samples*r <= k < samples*(r+1)`, divided by `samples` |
| `TimeIntegration.LevelMeans` | setigen/frame.py:176-184 | a repeated scalar profile averages to that scalar on every row |
| `TimeIntegration.IntegratedLevel` | setigen/frame.py:176-185 | integrating a scalar time profile yields that constant on every row |
| `TimeIntegration.MeansWithin` | setigen/frame.py:179-184 | every row mean lies between any lower and upper bound the profile respects at the sub-sample times |
| `TimeIntegration.SingleSampleMeans` | setigen/frame.py:175-184 | with one sub-sample per bin, row r is the profile at `r*dt`, the start of its bin (the direct branch uses `r*dt - dt/2`) |
| `TimeIntegration.NegativeSampleMeans` | setigen/frame.py:179-184 | with a negative `samples` every inner range is empty, so every row is 0 |
| `SetigenFrame.Signal` | setigen/frame.py:170-200 | the signal has the frame's shape `tchans x fchans`. It fails exactly when integrating with an empty time axis or zero samples |
| `SetigenFrame.DirectSignalCell` | setigen/frame.py:171-200 | without integration, cell (r, c) is `t_profile(r*dt - dt/2) * f_profile(fch1 + c*df, path(r*dt)) * bp_profile(fch1 + c*df)` |
| `SetigenFrame.IntegratedSignalCell` | setigen/frame.py:171-200 | with integration, cell (r, c) is row r's sub-sample mean of the time profile times the same frequency and bandpass factors |
| `SetigenFrame.LevelSignalIntegrationInvariant` | setigen/frame.py:174-187 | for a scalar time profile, integrating in time does not change the signal |
| `SetigenFrame.Frame.AddSignal` | setigen/frame.py:101-203 | returns `Signal` of the frame's axes. On success the new grid is the old grid plus the signal, and on a blank frame it equals the signal. On failure the grid is unchanged |
| `Grids.AddOntoZero` | tests/test_custom_parameters.py:77-85 | adding a grid onto the all-zero grid yields that grid, so on a fresh frame the returned signal equals the data |
| `Grids.AddGridsCommute` | setigen/frame.py:202 | elementwise grid addition, the `+=` on `self.data`, is commutative |
| `Grids.AddGridsAssociate` | setigen/frame.py:202 | elementwise grid addition is associative |

## Left out

- The filterbank branch of the constructor (`fil`, setigen/frame.py:40-50) is modelled only
  by how it ends. It reads `self.ts` at line 50 before line 61 assigns it, so it always
  fails (`UnsetTimeAxis`). Reading the file through `fil_utils` is not modelled.
- Supplying `data` to the constructor (lines 35-37) is not modelled. A frame always starts
  all-zero. The guard `if data:` raises for a NumPy array of more than one element, so the
  meaning of that branch is unclear.
- `average_f_pos` (lines 191-195) is not modelled. It calls `scipy.integrate.quad` (foreign
  numerics) and divides by `self.tsamp`, which the frame never sets. The path is always
  sampled at `ts`.
- Unit handling through `unit_utils` and astropy is not modelled. Inputs are taken in pixels,
  Hz and seconds. The `header` attribute is not modelled.
- The randomness of `distributions.gaussian` and `distributions.truncated_gaussian` is not
  modelled. The draw is a function the caller passes in. It must return a grid of the
  requested shape.
- NumPy truthiness of a multi-element `x_min_array` is not modelled. That test raises for an
  ndarray with more than one element. The argument is modelled as a Python list, which is
  truthy when non-empty.
- Floating-point rounding is not modelled. With floats, `np.arange` can yield one entry more
  than `fchans`, `tchans` or `tchans*samples`.
- Broadcasting errors from profiles that return arrays of the wrong length are not modelled.
- File I/O and empty stubs are not modelled: `save_fil`, `load_fil`, `save_npy`, `load_npy`,
  `save_frame_info`, `load_frame_info` (lines 206-227).
- Features the tests use but `frame.py` does not implement are not modelled: `shape`,
  `fmax`/`fmin`, noise statistics, `get_frequency`, `get_data`, `add_constant_signal`,
  array and scalar profiles, HDF5 output and `waterfall=`.
- The geometry attributes are Dafny `const` fields. No modelled operation reassigns them, and
  `data` is only updated in place.
