# Variational Monte Carlo walkers, lattice steps and column output: a Dafny model

This project models the discrete, stateful parts of a small Variational Monte
Carlo code:

- `ConfigWalk` (config_walk.py): the `ConfigWalker` Markov-chain walker over a
  real configuration vector of `particles × dims` coordinates. It proposes a
  move of one coordinate (`TryStep`), moves (`MoveTo`, `Step`) and takes a
  Metropolis step (`MetropolisStep`) whose acceptance ratio is
  `(wf(rp)/wf(r))²`, with the sentinel ratio 10 forcing acceptance when
  `wf(r) == 0`. The module also holds the sample mean `sample_avg` and the
  square of the sample standard deviation `sample_stdev`, which uses the N − 1
  denominator.
- `Vmc` (vmc.py): the integer lattice `ConfigSpace` and its clamped one-axis
  step `step_from`.
- `OutputUtils` (output_utils.py): the output file names `fa_name` and
  `conv_name`, and the lines `lists_to_file` writes: the header line and one
  space-separated row per index of the longest column. `Text` holds the string
  helpers it needs: decimal rendering for the default `col_i` headers, and
  `' '.join` / `split(' ')` with their round trip.
- `Wrappers`: `Option`, `Result`, `Outcome` and the Python exceptions that the
  modelled code raises.

Floats are idealised as Dafny `real`. Every random draw of the source is a
parameter of the operation that draws it, and a `requires` clause states the
draw's range. The draws are: the initial configuration, the axis, the step
length and the uniform number `u`. The wavefunction `wf` and the observable
`f` are function parameters.

Modelling choices that follow the code:

- The constructors keep the source's default arguments: `particles = 1`,
  `dims = 3`, `scale = 1.0` for the walker and `dim_size = 1.0`, `dims = 3`
  for the lattice. The walker's start draw comes first in the parameter list,
  so Python's `ConfigWalker(1, 1)` is `new ConfigWalker(start, 1, 1)`.
- Drawing an integer from an empty range raises ValueError in numpy. This
  happens in `try_step` when `coord_n == 0`, and in `step_from` when
  `dimension == 0` or the step bound is not positive. The model returns
  `Err(ValueError)` / `Fail(ValueError)` for these.
- `try_step` indexes a zero vector as long as the stored configuration, at an
  axis drawn from `[0, coord_n)`. `move_to` stores any vector without a check.
  So `try_step` can raise IndexError, and `step` and `metropolis_step`
  propagate it without moving. The model returns `Err(IndexError)` /
  `Fail(IndexError)` for this.
- `sample_avg` of no samples divides the float `0.` by `0`, which raises
  ZeroDivisionError. The model returns `Err(ZeroDivisionError)`.
- `sample_stdev` divides by `len(configs) - 1`. For one sample this is a
  division by zero, reported as `Err(ZeroDivisionError)`. For no samples it is
  `0. / -1`, so the model gives variance 0.
- The lower clamp of `step_from` (vmc.py:22) tests `initial[a] - step_len`, not
  `initial[a] + step_len`. `StepFrom` reproduces this. Only the upper bound
  `subdivisions - 1` holds for the result; see Findings.

## Model

| member | source | states |
|---|---|---|
| `ConfigWalk.ConfigWalker.constructor` | config_walk.py:10-26 | with the defaults `particles = 1`, `dims = 3`, `scale = 1.0`: `coord_n == dims*particles`; the configuration is the drawn vector of `coord_n` entries, each in `[0, scale)`; `max_step == 0.4*scale` |
| `ConfigWalk.ConfigWalker.CurrentConfig` | config_walk.py:57-59 | returns a newly allocated array holding the stored configuration, so the caller's copy is not shared with the walker |
| `ConfigWalk.ConfigWalker.TryStep` | config_walk.py:28-34 | ValueError when `coord_n == 0`; otherwise, for an axis drawn in `[0, coord_n)`, IndexError exactly when the axis is past the stored vector, and else the proposal: a vector of the same length that differs from the stored one only at the axis, by exactly the step length. The walker is left unchanged |
| `ConfigWalk.ConfigWalker.MoveTo` | config_walk.py:36-38 | the stored configuration becomes the destination |
| `ConfigWalk.ConfigWalker.Step` | config_walk.py:40-42 | on success the new configuration is the proposal, so it differs from the old one in at most the drawn axis; on ValueError or IndexError nothing changes |
| `ConfigWalk.ConfigWalker.MetropolisStep` | config_walk.py:44-55 | on success the new configuration is the proposal when the ratio (10 if `wf(r) == 0`, else `(wf(rp)/wf(r))²`) is at least 1 or above `u`, else the old configuration; so it is always the old one or the proposal, with the same length. Errors of `try_step` leave the walker unchanged |
| `ConfigWalk.Propose` | config_walk.py:32-34 | the proposal has the configuration's length, holds `c[a] + s` at the drawn axis and every other coordinate unchanged |
| `ConfigWalk.ProposalIsSymmetric` | config_walk.py:28-34 | the opposite step on the same axis undoes a proposal, so the kernel is symmetric |
| `ConfigWalk.ProposalReachesAxisNeighbours` | config_walk.py:28-34 | every vector that differs from the current one only at an axis is the proposal for some step length |
| `ConfigWalk.AcceptanceRatio` | config_walk.py:47-50 | the ratio is never negative; it is at least 1 (forced acceptance) when `wf(r) == 0`; it is exactly 1 when the current weight is non-zero and the proposal's weight equals it up to sign |
| `ConfigWalk.Accepts` | config_walk.py:51-55 | for `u` in `[0, 1)`, the proposal is accepted exactly when `u < min(1, p)`, so with `u` uniform the acceptance probability is `min(1, p)` |
| `ConfigWalk.ZeroWeightForcesAcceptance` | config_walk.py:47-52 | a walker at a zero-weight point accepts whatever `u` it draws |
| `ConfigWalk.EqualWeightIsAccepted` | config_walk.py:47-52 | a proposal with the same weight as the current point is always accepted |
| `ConfigWalk.OnlySquaredWeightMatters` | config_walk.py:50 | changing the sign of either weight leaves the ratio unchanged |
| `ConfigWalk.SampleAvg` | config_walk.py:64-68 | no samples raises ZeroDivisionError; otherwise the result is the sum of `f` over the samples divided by N |
| `ConfigWalk.SampleVariance` | config_walk.py:70-74 | the square of `sample_stdev`: exactly one sample raises ZeroDivisionError; otherwise the sum of `(f(c) - avg)²` over N − 1, which is never negative |
| `ConfigWalk.SumSqDevNonNegative` | config_walk.py:71-73 | the accumulated squared deviation is never negative |
| `ConfigWalk.EstimatorsOnOneTwoThree` | config_walk.py:64-74 | on the samples 1, 2, 3 the mean is 2 and the N − 1 variance about 2 is 1 |
| `Vmc.ConfigSpace.constructor` | vmc.py:10-14 | with the defaults `dim_size = 1.0`, `dims = 3`: `dimension == particles*dims`, `spatial_dims == dims`, and the size and subdivisions are stored |
| `Vmc.ConfigSpace.StepFrom` | vmc.py:16-27 | ValueError exactly when `initial` does not have `dimension` entries, when `dimension == 0`, or when the step bound (a given `max_step`, or the default) is not positive, so the range to draw from is empty; otherwise a new array of the same length, with `initial` unmodified, equal to the stepped configuration: it differs from `initial` only at the drawn axis and, for `subdivisions >= 1`, is never above `subdivisions - 1` there |
| `Vmc.DefaultMaxStep` | vmc.py:18 | the default step bound is at least 1; it is 1 exactly when `subdivisions < 2000`, and otherwise the thousands of `subdivisions` |
| `Vmc.MaxStepOrDefault` | vmc.py:18 | the bound the step is drawn with: a given `max_step` unchanged, even when it is not positive, or, when none is given, a default of at least 1 |
| `Vmc.SteppedCoordinate` | vmc.py:22-26 | as written, the new coordinate is 0, `subdivisions - 1` or `initial[a] + step_len`; for `subdivisions >= 1` it is never above `subdivisions - 1`, and never below 0 for a step that is not negative |
| `Vmc.SteppedConfig` | vmc.py:21-27 | the stepped vector keeps its length and every other axis; the drawn axis becomes 0, `subdivisions - 1` or `initial[a] + step_len`, and for `subdivisions >= 1` never exceeds `subdivisions - 1` |
| `Vmc.NegativeStepLeavesLattice` | vmc.py:22-26 | as written, step −1 from coordinate 0 (10 subdivisions) gives −1, below the lattice |
| `Vmc.PositiveStepSnapsToZero` | vmc.py:22-23 | as written, step +1 from coordinate 1 gives 0 instead of 2 |
| `Vmc.ClampedCoordinate` | vmc.py:22-26 | the intended clamp: the result is in `[0, subdivisions - 1]`, and equals `initial[a] + step_len` whenever that is in range |
| `Vmc.SteppedAgreesWithClampWhenTestsAgree` | vmc.py:22-26 | the code as written matches the intended clamp whenever its lower test gives the same answer as the intended one |
| `OutputUtils.FaName` | output_utils.py:3-4 | the name is `output/`, then the system name, then `_fixedalpha.txt`, and so 22 characters longer than the system name |
| `OutputUtils.ConvName` | output_utils.py:6-7 | the name is `output/`, then the system name, then `_convergence.txt`, and so 23 characters longer than the system name |
| `OutputUtils.FileNamesInjective` | output_utils.py:3-7 | two different systems never get the same fixed-alpha or convergence file |
| `OutputUtils.FixedAlphaNeverConvergence` | output_utils.py:3-7 | no fixed-alpha file name equals any convergence file name |
| `OutputUtils.DefaultHeaders` | output_utils.py:27-28 | one default header per column, none containing a space or a line break |
| `OutputUtils.DefaultHeadersReadBack` | output_utils.py:27-28 | default header `i` is `col_` followed by digits that read back as `i`, so the default headers are pairwise distinct |
| `OutputUtils.MaxLen` | output_utils.py:24 | the row count is at least every column's length and equal to some column's length |
| `OutputUtils.Row` | output_utils.py:36 | one field per column: the rendered entry at row `i` when the column is long enough, `''` when it is not |
| `OutputUtils.HeadersOrDefault` | output_utils.py:27-28 | the given headers unchanged, or, when none are given, one default header per column with no line break in any |
| `OutputUtils.HeaderLine` | output_utils.py:32 | the header line ends in a newline, and without it is the headers joined by spaces |
| `OutputUtils.DataLine` | output_utils.py:36-37 | data line `i` ends in a newline, and without it is row `i` joined by spaces |
| `OutputUtils.DataLines` | output_utils.py:35-37 | the loop over the first `n` row indices yields exactly `n` lines |
| `OutputUtils.DataLinesAt` | output_utils.py:35-37 | data line `i` of the loop is the space-joined row `i` followed by a newline |
| `OutputUtils.TableLines` | output_utils.py:20-37 | nothing is written exactly when there are no columns; otherwise one header line plus `max(len(lst))` data lines are written |
| `OutputUtils.TableHeaderLine` | output_utils.py:27-32 | the first written line is the space-joined headers, given or default, followed by a newline |
| `OutputUtils.TableDataLine` | output_utils.py:35-37 | written line `k >= 1` is the line of data row `k - 1` |
| `OutputUtils.TableLinesEndInNewline` | output_utils.py:32-37 | every written line ends in a newline |
| `OutputUtils.OneLineBreakPerLine` | output_utils.py:32-37 | provided no rendered entry and no given header contains a line break, every written line holds exactly one line break, at its end |
| `OutputUtils.DataLineFields` | output_utils.py:35-37 | provided no rendered entry contains a space: split at spaces, data line `k` has exactly one field per column, the entry at row `k - 1`, or `''` past the column's end |
| `OutputUtils.HeaderLineFields` | output_utils.py:27-32 | provided the given headers, if any, are non-empty and contain no space: split at spaces, the header line gives back the default `col_i` names or the given headers |
| `OutputUtils.ListsToFile` | output_utils.py:9-37 | the loop writes exactly the header line followed by the data lines of the table, `1 + max(len(lst))` lines in all, and nothing when there are no columns |
| `Text.NatToDecimal` | output_utils.py:28 | the rendering of an index is a non-empty string of digits with no space or line break |
| `Text.DecimalRoundTrip` | output_utils.py:28 | reading the digits back gives the index |
| `Text.DecimalInjective` | output_utils.py:28 | distinct indices render differently |
| `Text.Join` | output_utils.py:32 | for at least one field, the joined line is as long as the fields together plus one separating space between each neighbouring pair |
| `Text.JoinAddsNoLineBreak` | output_utils.py:32-37 | joining fields that hold no line break gives a line without one |
| `Text.SplitJoinRoundTrip` | output_utils.py:32-37 | splitting a space-joined line at single spaces gives back its fields when there is at least one field and no field contains a space |

## Findings

| source | as written | input that shows it | evidently intended | confidence | as-written member | corrected member |
|---|---|---|---|---|---|---|
| vmc.py:22-26 | the lower clamp tests `step_vec[a] - step_len <= 0` | `initial[a] = 0`, `step_len = -1`, `subdivisions = 10` gives −1; `initial[a] = 1`, `step_len = 1` gives 0 | clamp `initial[a] + step_len` to `[0, subdivisions - 1]` | high; not executed | `Vmc.NegativeStepLeavesLattice` | `Vmc.ClampedCoordinate` |

`Vmc.ConfigSpace.StepFrom` keeps the as-written behaviour so that it describes
the code. `Vmc.ClampedCoordinate` is the corrected step, proved to stay in
`[0, subdivisions - 1]`.

## Left out

- Random number generation: the generators shared by each class (config_walk.py:7-8, vmc.py:7-8) are replaced by parameters, with requires clauses stating each draw's range. The normal distribution of `try_step`'s step length and the uniform distribution of the start point are not modelled, only their ranges.
- `Vmc.ConfigSpace.StepFrom`: the default bound `subdivisions // 1e3` is a float in the source and is modelled as the integer it equals. `max_step` is an integer, as the source's annotation says.
- `ConfigWalk.ConfigWalker.constructor`: `particles` and `dims` are natural numbers, so negative counts are not modelled.
- `Vmc.ConfigSpace.StepFrom`: the lattice coordinates and the step are unbounded integers. numpy stores them in fixed-width integers, so `initial[a] - step_len` and `initial[a] + step_len` could wrap around near 2^63; that overflow is not modelled.
- `ConfigWalk.ConfigWalker.MoveTo`: Python stores the caller's array itself, so later changes to that array would reach the walker. The model stores a value, so this aliasing is not captured.
- `ConfigWalk.ConfigWalker.constructor`: the start point is a parameter that must be in `[0, scale)`, so `scale <= 0` with coordinates is excluded, although numpy would draw from `(scale, 0]`.
- `ConfigWalk.SampleVariance`: `np.sqrt` is not modelled; the member states the variance, the square of the returned value. With one sample the source gives inf/nan when `f` returns numpy scalars and raises when it returns Python floats; the model reports ZeroDivisionError.
- Float semantics (rounding, NaN, infinities) are not modelled; `real` is exact.
- `gauss_wf`, `__str__` and the `__main__` demo in config_walk.py and vmc.py: a test wavefunction and display code with no logic to verify.
- The `open`/`write` calls and the `Path` conversion in `lists_to_file`: the model yields the lines written, not the file. Python's `str` of an entry is the `show` parameter.
- The sampling driver, parameter update and convergence loop (`vmc.variational_mc`, `vmc.vmc_iteration`) are called by the scripts but are not defined in vmc.py; they are not part of this model. The physics modules, argument parsing and plotting scripts are not part of this model either.
