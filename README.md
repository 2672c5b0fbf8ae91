# mathshaper — a Dafny model of the waveshaper's data logic

Mathshaper is an audio plugin that shapes each sample with a function from a
lookup table and shows peak meters. This project models four parts of it and
proves properties of each:

- **The lookup-table shaper** (`src/shaper.rs`), module `Shaper`. A table of
  `TABLE_SIZE = 128` cells. Cell `i` sits at the sample point
  `f32::MIN + i * STEP`, with `STEP = (f32::MAX - f32::MIN) / INDEX_MAX`.
  `nearest_lower_index` maps a value to its cell, `value_from_index` maps a
  cell back to its point, and `interpolate` draws a straight line between two
  neighbouring cells. The last cell is returned as it is. The default table is
  the identity ramp. The shaper is a datatype holding its table by value, as
  the Rust struct holds its array. `default_lut` is a method that fills an
  array in a loop.
- **The Chebyshev evaluator** (`src/math/chebychev.rs`), module `Chebychev`.
  A negative order is an error; orders 0 and 1 give 1 and the argument; every
  higher order follows the three-term recurrence. For every non-negative
  order it is proved equal to the recurrence definition `T`, which has no
  error path. Its values at 1, -1 and 0 and its parity are proved from `T`.
- **The audio callback** (`src/lib.rs`, `Mathshaper::process`), module
  `Mathshaper`. Each sample of each channel is:
  1. multiplied by the pre-gain;
  2. folded into the block's running maximum and minimum;
  3. shaped and multiplied by the post-gain, in place.

  A channel whose index has no oversampler ends the loop. Afterwards the stored
  peaks either take the block's new extreme or decay by `1 - decay/100`. The
  plugin is a class whose `peakMax`, `peakMin` and oversampler count are
  fields. The block is a sequence of channel arrays, and the shaping function
  is an abstract `real -> real` parameter.
- **The build script** (`build.rs`), module `BuildScript`. Every `.env` line
  holding an `=` is split at its first `=` and becomes
  `cargo:rustc-env=key=value`. Lines without `=` are skipped.

`Wrappers` holds `Option` and `Result`. `Float32` holds `f32::MAX` as an exact
real and `f32::MIN` as its negation. All arithmetic is on exact reals.

The table spans the whole f32 range, and `nearest_lower_index` does not
clamp its index.

## Model

| member | source | states |
|---|---|---|
| Shaper.Shaper.ValueFromIndex | src/shaper.rs:28-30 | the sample point of every index in 0..INDEX_MAX lies in [f32::MIN, f32::MAX] |
| Shaper.Shaper.NearestLowerIndex | src/shaper.rs:24-26 | for a value in [MIN, MAX] the index is at most INDEX_MAX. Its sample point is at or below the value, and below the last cell the next point is strictly above the value |
| Shaper.Shaper.Interpolate | src/shaper.rs:32-50 | at INDEX_MAX the last entry is returned whatever x is. Otherwise the result equals lut[i] at the point of i and lut[i+1] at the point of i+1. The table is never read past its end |
| Shaper.Shaper.DefaultLut | src/shaper.rs:7-13 | the filled table is a new array, has TABLE_SIZE entries and entry i is value_from_index(i). Entry 0 is f32::MIN and the last entry is f32::MAX |
| Shaper.Shaper.Default | src/shaper.rs:53-57 | the default shaper has a full-size table holding the identity ramp |
| Shaper.Line | src/shaper.rs:43-49 | the interpolation formula, with both differences taken first minus second, passes through (x1, y1) and (x2, y2) |
| Shaper.StepIsPositive | src/shaper.rs:3-4 | STEP is positive and INDEX_MAX steps span exactly the f32 range |
| Shaper.ValueFromIndexIncreasing | src/shaper.rs:28-30 | points i < j are exactly (j - i) * STEP apart, so they increase strictly and the division in interpolate never has a zero denominator |
| Shaper.ValueFromIndexMonotone | src/shaper.rs:28-30 | sample points never decrease with the index |
| Shaper.ValueFromIndexEndpoints | src/shaper.rs:28-30 | point 0 is f32::MIN and point INDEX_MAX is f32::MAX |
| Shaper.NearestLowerIndexEndpoints | src/shaper.rs:86-98 | nearest_lower_index(f32::MIN) is 0 and nearest_lower_index(f32::MAX) is INDEX_MAX |
| Shaper.NearestLowerIndexUnique | src/shaper.rs:24-30 | any cell whose interval brackets the value is the cell nearest_lower_index returns |
| Shaper.InterpolateBetween | src/shaper.rs:37-49 | for x between points i and i+1 the result lies between lut[i] and lut[i+1], in either order |
| Shaper.LineBetween | src/shaper.rs:43-49 | between x1 and x2 the interpolation line stays between y1 and y2 |
| Shaper.LineOfAffine | src/shaper.rs:43-49 | the line through two points of an affine function is that function |
| Shaper.InterpolateAffineCell | src/shaper.rs:37-49 | if two neighbouring cells lie on a line, interpolating in that cell follows the line for every x |
| Shaper.InterpolateAffineExact | src/shaper.rs:24-50 | a table sampled from an affine function reproduces it exactly on [MIN, MAX] when looked up and interpolated |
| Shaper.DefaultInterpolatesIdentity | src/shaper.rs:101-111 | with the default table, interpolate(nearest_lower_index(x), x) == x on [MIN, MAX] in exact arithmetic |
| Shaper.InterpolateAtEnds | src/shaper.rs:24-39 | looking up f32::MIN gives the first entry and looking up f32::MAX gives the last |
| Chebychev.Chebychev | src/math/chebychev.rs:3-12 | the result is an error exactly when the order is negative, and the error carries the "order can't be negative" message. Every non-negative order gives Ok |
| Chebychev.ChebychevIsT | src/math/chebychev.rs:3-12 | for every non-negative order the evaluator returns Ok of the recurrence definition T_n(v), so the error path is never taken |
| Chebychev.BaseOrders | src/math/chebychev.rs:8-9 | order 0 gives 1 and order 1 gives the value |
| Chebychev.ChebychevRecurrence | src/math/chebychev.rs:10 | from order 2 on, the result is 2 * value * T(n-1) - T(n-2) of its own results |
| Chebychev.ValueAtOne | src/math/chebychev.rs:8-10 | T_n(1) = 1 for every order |
| Chebychev.Parity | src/math/chebychev.rs:8-10 | T_n(-v) = T_n(v) for even n and -T_n(v) for odd n, for the definition and for the evaluator |
| Chebychev.ParityPair | src/math/chebychev.rs:8-10 | parity for orders 2m and 2m+1, by induction on m |
| Chebychev.ValueAtMinusOne | src/math/chebychev.rs:8-10 | T_n(-1) = (-1)^n |
| Chebychev.ValueAtZero | src/math/chebychev.rs:8-10 | T_n(0) is 0 for odd n and (-1)^(n/2) for even n |
| Chebychev.ZeroPair | src/math/chebychev.rs:8-10 | the values at 0 for orders 2m and 2m+1, by induction on m |
| Mathshaper.Max | src/lib.rs:229 | f32::max on non-NaN values is at least both arguments and is one of them |
| Mathshaper.Min | src/lib.rs:230 | f32::min on non-NaN values is at most both arguments and is one of them |
| Mathshaper.PreGainedAt | src/lib.rs:228 | pre-gained sample k is input sample k times the pre-gain |
| Mathshaper.ShapedAt | src/lib.rs:228-231 | output sample k is shape(input[k] * pre_gain) * post_gain, and the buffer keeps its length |
| Mathshaper.ProcessedChannelsAt | src/lib.rs:218-232 | in a processed block, every sample of a channel below the oversampler count is shape(input * pre_gain) * post_gain. Every channel at or above that count keeps its samples |
| Mathshaper.ShapeSamples | src/lib.rs:227-232 | the per-sample loop leaves shape(x * pre_gain) * post_gain in every cell. It returns the running extrema extended by the pre-gained samples, in order |
| Mathshaper.SampleStep | src/lib.rs:228-231 | one loop step: the pre-gained sample extends the running extrema, and its shaped value is the expected output |
| Mathshaper.ShapeChannel | src/lib.rs:225-234 | the per-sample loop on one channel shapes that buffer and leaves every other buffer of the block unchanged |
| Mathshaper.ShapeChannels | src/lib.rs:196-236 | the channel loop starts the extrema at f32::MIN and f32::MAX and shapes exactly the channels below the oversampler count. It leaves the rest untouched because of the break, and returns the extrema of those channels' pre-gained samples |
| Mathshaper.ProcessedStep | src/lib.rs:218-232 | shaping one more channel extends the processed prefix by that channel |
| Mathshaper.ProcessedChannelsSaturate | src/lib.rs:220-223 | once the loop has stopped at the oversampler count or at the last channel, the processed block is the full result |
| Mathshaper.ChannelStep | src/lib.rs:227-230 | taking one more channel folds its pre-gained samples into the block extrema |
| Mathshaper.GainedChannelsSaturate | src/lib.rs:220-223 | stopping at the oversampler count or at the last channel gives the same extrema as the full rule |
| Mathshaper.Mathshaper.Default | src/lib.rs:46-57 | a fresh plugin has zero peaks and no oversamplers |
| Mathshaper.Mathshaper.Initialize | src/lib.rs:163-180 | one oversampler per main input channel, or one when the layout has none. It always returns true |
| Mathshaper.Mathshaper.Process | src/lib.rs:187-256 | the block becomes the processed block. The new peak max is the block max over the pre-gained samples if that is above the old peak, else the old peak times 1 - decay/100, and the min likewise. Only the buffers and the two peaks change |
| Mathshaper.NextPeakMax | src/lib.rs:242-246 | the new stored maximum is either the block maximum or the old one decayed. A block maximum above the old peak is kept exactly; otherwise the old peak is multiplied by 1 - decay |
| Mathshaper.NextPeakMin | src/lib.rs:247-251 | the new stored minimum is either the block minimum or the old one decayed. A block minimum below the old peak is kept exactly; otherwise the old peak is multiplied by 1 - decay |
| Mathshaper.Decay | src/lib.rs:240 | a decay parameter in [0, 3], divided by 100, gives a decay in [0, 0.03] and a factor 1 - decay in [0.97, 1] |
| Mathshaper.RunningMaxBounds | src/lib.rs:229 | the running maximum is at least its start and every sample, and equals the start or one of the samples |
| Mathshaper.RunningMinBounds | src/lib.rs:230 | the running minimum is at most its start and every sample, and equals the start or one of the samples |
| Mathshaper.BlockMaxBounds | src/lib.rs:227-230 | the block maximum bounds every sample of every channel from above, and equals the start or some sample |
| Mathshaper.BlockMinBounds | src/lib.rs:227-230 | the block minimum bounds every sample of every channel from below, and equals the start or some sample |
| Mathshaper.BlockMaxIsASample | src/lib.rs:196-230 | started at f32::MIN, a non-empty block with samples in the f32 range has a maximum that is one of its samples |
| Mathshaper.BlockMinIsASample | src/lib.rs:197-230 | started at f32::MAX, a non-empty block with samples in the f32 range has a minimum that is one of its samples |
| Mathshaper.EmptyBlockExtrema | src/lib.rs:196-197 | a block without samples leaves the extrema at f32::MIN and f32::MAX |
| Mathshaper.EmptyBlockDecays | src/lib.rs:242-251 | with no samples, both stored peaks in the f32 range decay |
| Mathshaper.DecayFactorScaling | src/lib.rs:245 | multiplying by 1 - decay, for a decay in [0, 0.03], keeps the sign and shrinks the magnitude by at most three percent |
| Mathshaper.DecayedPeakMax | src/lib.rs:242-246 | without a new maximum, the stored maximum keeps its sign and never grows in magnitude |
| Mathshaper.DecayedPeakMin | src/lib.rs:247-251 | without a new minimum, the stored minimum keeps its sign and never grows in magnitude |
| Mathshaper.PeakMaxCanUndershootBlock | src/lib.rs:242-246 | because the comparison is with the undecayed peak, a block maximum between the decayed and the undecayed peak leaves a stored maximum below the block's own maximum |
| BuildScript.FindFirst | build.rs:8 | the first position of the character, and None exactly when it does not occur |
| BuildScript.SplitOnce | build.rs:8 | None exactly when the line has no `=`. Otherwise key + "=" + value is the line and the key holds no `=`, so any later `=` stays in the value |
| BuildScript.Directive | build.rs:9 | the directive is "cargo:rustc-env=" followed by key, `=` and value, and has exactly that length |
| BuildScript.LineDirective | build.rs:8-9 | a line yields a directive exactly when it holds an `=`, and a directive is longer than the prefix |
| BuildScript.Assignments | build.rs:7-8 | the lines that hold an `=`, in order |
| BuildScript.EmitDirectives | build.rs:7-11 | the loop over the lines emits exactly the directives of the lines, in line order |
| BuildScript.SplitOnceJoin | build.rs:8 | splitting key + "=" + value for a key without `=` gives back that key and value |
| BuildScript.LineDirectiveIsPrefixedLine | build.rs:8-9 | a line yields no directive exactly when it has no `=`. Otherwise the directive is "cargo:rustc-env=" followed by the whole line |
| BuildScript.DirectivesAreAssignments | build.rs:7-11 | there is exactly one directive per line holding an `=`, in line order, each the prefix followed by that line |
| BuildScript.DirectiveRoundTrip | build.rs:9 | removing the prefix from a directive and splitting at the first `=` recovers the key and the value |

## Left out

- f32 and f64 rounding, the f64/f32 casts, NaN and infinities. Every value is an exact real, so `test_floats` (src/shaper.rs:68-73) has nothing to state.
- Shaper.Shaper.NearestLowerIndex: requires the value to lie in [f32::MIN, f32::MAX]. The Rust cast `as usize` saturates negative and NaN results to 0, which the model does not cover; for finite f32 inputs the range always holds.
- Shaper.Shaper.Interpolate: requires lower_index <= INDEX_MAX, because the Rust code panics on an index past the table.
- `Shaper::calc` is `todo!()`, and the `println!` output in `interpolate` and in the tests has no behaviour to model.
- The generic `Shaper<N>` that src/lib.rs uses, with its `process`, `prompt` and `display`, is not in src/shaper.rs. The shaping step is the abstract `shape` parameter of the callback.
- The expression parser and evaluator that call `chebychev` are not part of this model.
- The triple buffer, the `Mutex` and the relaxed atomics. The peaks are plain fields and the shaper table is read as a function.
- The oversampler (`oversample`/`finish`) and `iter_blocks` chunking into blocks of `MAX_BLOCK_SIZE` are outside the model. A block is one sequence of channel arrays processed at one rate.
- The channel arrays of a block stand for the oversampled buffers the per-sample loop runs on (16 times oversampled, `OVERSAMPLE_MAX`), not for the host buffers. So `ShapedAt`, `ProcessedChannelsAt`, `BlockMaxBounds` and `BlockMaxIsASample` describe the oversampled samples. The host buffer receives the downsampled result of `finish`, which is not modelled.
- The `nih_log!` message logged when a channel has no oversampler (src/lib.rs:221) is output only; the model keeps the `break` that follows it.
- Parameter smoothing and the host parameter objects. The gains and the decay parameter are plain values given to `Process`.
- Mathshaper.Mathshaper.Process: requires the channel arrays to be distinct, as the host's channel slices are. It also requires the decay parameter in [0, 3], the range the parameter object enforces.
- Mathshaper.Mathshaper.Initialize: requires a present channel count to be positive, as `NonZeroU32` guarantees. The `println!` of the layout is left out.
- Mathshaper.Mathshaper.Default: the parameter objects, the editor state and the triple buffer it creates are not modelled; only the peaks and the empty oversampler list are.
- The GUI (src/editor.rs, src/editor/shaper_view.rs), the plugin constants and the CLAP/VST3 exports.
- build.rs reading the `.env` file, its `expect` panic and the printing of the directives. The model takes the file as a sequence of lines and returns the directives, so the CRLF handling of `lines()` is not modelled.
