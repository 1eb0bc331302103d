# deform_grid_c call preparation, in Dafny

This project models the pure-Python wrapper `deform_grid_c` of elasticdeform.
That wrapper prepares a call into the `_deform_grid` resampling engine. The
model covers four things:

- how it normalises the optional crop descriptor into an output shape and an
  optional integer offset (module `Crop`);
- how that offset relates to the reference implementation `deform_grid_py`,
  which crops the identity coordinate grid by Python slicing (module `Slicing`);
- the call plan: single-array versus list handling, one output per input with
  the input's dtype and the cropped shape, prefiltering of the inputs only above
  order 1, and filtering of the displacement field on every axis except the
  leading one, always at cubic order (module `CallPlan`);
- `Wrappers` holds the `Option` and `Result` types.

Arrays are abstract: an array is its shape (`seq<nat>`) and an opaque dtype.
Python exceptions and assertion failures become the `Failure` side of a `Result`.
Each error names the axis on which it arose. When several problems exist, the
error reported is for the first axis the loop reaches.

## Model

| member | source | states |
|---|---|---|
| `Crop.CheckAxis` | deform_grid_test.py:44-54 | An entry is accepted exactly when it is a step-less slice with `0 <= start < stop <= shape[d]`. Otherwise the error follows the wrapper's order of checks: not a slice, then step given, then negative start, then bad range. An accepted range starts at the resolved start and has length `stop - start`, which lies in `1 .. shape[d]`. |
| `Crop.CheckAxes` | deform_grid_test.py:43-54 | The axis loop succeeds exactly when every axis has an entry and that entry is accepted. On success it gives each axis its start and its extent. On failure the error is the first fault: every earlier axis passed, and the failing axis lacked an entry or failed its checks. |
| `Crop.NormalizeCropWith` | deform_grid_test.py:40-61 | With no crop, the result is the input shape with no offset. With a crop, the result succeeds exactly when the crop is accepted on every axis, and failures report the first fault. The output extent on axis d is `stop - start`, within `1 .. shape[d]`. The offset is `None` exactly when every resolved start is 0. Otherwise `offset[d]` is the resolved start on every axis. |
| `Crop.NormalizeCrop` | deform_grid_test.py:40-61 | This is the normaliser as written. It uses `stop or shape[d]`, which also widens an explicit stop of 0. It succeeds exactly on accepted crops. The output extent on each axis is `stop - start`, so `1 <= output_shape[d] <= shape[d]`. The offset is `None` exactly when every resolved start is 0; otherwise `offset[d]` is the resolved start on every axis. With no crop, the shape is unchanged and there is no offset. |
| `Crop.NormalizeCropIntended` | deform_grid_test.py:46-49 | This is the corrected normaliser, which defaults the stop only when it is missing. It succeeds exactly on crops accepted under that rule, so no accepted axis has an explicit stop of 0. Extents and offset follow the same rules as in `NormalizeCrop`. |
| `Crop.CheckAxesRulesAgree` | deform_grid_test.py:43-54 | If no entry has an explicit stop of 0, the axis loop gives the same result under both stop rules. |
| `Crop.StopRulesAgreeWithoutZeroStops` | deform_grid_test.py:46-47 | On every crop with no explicit stop of 0, the as-written and the corrected normalisers return the same result. |
| `Slicing.SliceIndices` | deform_grid_test.py:13-18 | Slicing `np.arange(n)` yields at most `n` indices, each inside `[0, n)`. |
| `Slicing.ReferenceShape` | deform_grid_test.py:13-18 | The reference's cropped grid has one extent per axis, each no larger than the axis. |
| `Slicing.ReferenceCoordinate` | deform_grid_test.py:13-18 | The reference's cropped identity coordinate on axis d is an index inside `[0, shape[d])`. |
| `Slicing.AxisSliceIsShiftedRange` | deform_grid_test.py:46-52 | Take an accepted entry whose stop is not a defaulted 0. Python's slice of the axis then has `stop - start` elements, and element i is `i + start`. |
| `Slicing.CropMatchesSlicing` | deform_grid_test.py:13-52 | Crop consistency. Take an accepted crop with one entry per axis; under the as-written rule, also require that no stop is 0. The reference's cropped grid then has the wrapper's output shape. At every output index, its coordinate on axis d is the index plus the wrapper's offset on d, or plus 0 when there is no offset. |
| `Slicing.ZeroStopCounterexample` | deform_grid_test.py:47 | The wrapper accepts `slice(2, 0)` on an axis of extent 4 as extent 2 with offset 2. The reference's slice of that axis is empty. |
| `Slicing.IntendedRefusesZeroStop` | deform_grid_test.py:47-49 | The corrected normaliser refuses any crop with an explicit stop of 0 on a checked axis. Python slicing gives an empty range there. |
| `CallPlan.DisplacementPasses` | deform_grid_test.py:67-69 | A displacement field of rank R gets R-1 passes (none when R is 0). The passes cover axes 1 .. R-1 in order and never axis 0, each at order 3. |
| `CallPlan.PrefilterDistributes` | deform_grid_test.py:63-66 | Prefiltering a concatenated list of inputs equals prefiltering each part and concatenating the results. Each input's coefficient array therefore depends only on that input and the order. |
| `CallPlan.AllocateDistributes` | deform_grid_test.py:74 | Allocating outputs for a concatenated list of inputs equals allocating for each part and concatenating. Each output depends only on its own input and the output shape. |
| `CallPlan.DefaultCallIsCubicUncropped` | deform_grid_test.py:30-80 | A call that omits the order and the crop succeeds exactly when the list is non-empty. It runs at order 3 with no offset. Every input is spline-filtered at order 3, and every output has the first input's shape and its own input's dtype. |
| `CallPlan.PlanCallWith` | deform_grid_test.py:30-80 | An empty list fails, and a crop failure reports its first fault. Otherwise the plan succeeds. A single input gives a single output, and a list gives a list of the same length. Each output has the cropped shape and its input's dtype. The offset is the normalised one. Inputs are prefiltered at the main order exactly when `order > 1`. The displacement is filtered on axes 1 .. R-1 at order 3. The boundary mode is constant extension (mode 4) with value 0.0. With no crop, every output has the first input's shape and there is no offset. |
| `CallPlan.PlanCall` | deform_grid_test.py:30-80 | This is the wrapper as written; by default the order is 3 and there is no crop. It succeeds exactly when the list is non-empty and `NormalizeCrop` accepts the crop. A single array gives a single output and a list gives a list of the same length. Output k has the normalised shape and input k's dtype. With no crop there is no offset. With a crop, the offset is `None` exactly when every start is 0, and otherwise holds the starts. |
| `CallPlan.PlanCallIntended` | deform_grid_test.py:30-80 | Gives the same guarantees as `PlanCall`, with the same defaults, but uses `NormalizeCropIntended`. |
| `CallPlan.BatchMatchesSingles` | deform_grid_test.py:31-38 | Consider arrays that share one shape. The plan for the list succeeds exactly when the plan for each single array does, and fails with the same error. Output k, coefficient array k, the offset and the displacement passes all equal those of the single-array plan. |
| `CallPlan.SingleIsBatchOfOne` | deform_grid_test.py:31-80 | A single array is planned exactly like a one-element list. The only difference is that its output is returned bare (`outputs[0]`). |
| `CallPlan.DisplacementFilterIgnoresOrder` | deform_grid_test.py:63-69 | Two calls that differ only in the main order succeed together. They filter the displacement identically and allocate the same outputs with the same offset. |
| `CallPlan.IntendedPlanMatchesReference` | deform_grid_test.py:13-80 | End-to-end crop consistency for the corrected wrapper. Every output has the shape of the reference's cropped grid. At every output index, the offset-adjusted identity coordinate equals the reference's cropped coordinate. |

## Left out

- `scipy.ndimage.map_coordinates`, `spline_filter` and `spline_filter1d` (lines 23, 27, 64, 69) are floating-point spline numerics in a library outside this model. A filtering step is recorded only as a `SplineFiltered` or `FilterPass` value.
- The `_deform_grid.deform_grid` C extension (line 75) is not part of this model. The plan records the arguments it receives. `Slicing.OffsetCoordinate` encodes an assumption of the model: the engine's identity coordinate at output index `idx` is `idx` plus the offset. The evidence is the crop tests (deform_grid_test.py:96-110, 117, 138). They compare the call that passes an offset against the reference cropped by slicing.
- The control-point coordinates `np.linspace(0, points[d] - 1, shape[d])` (line 15) are float arithmetic. The reference crops them with the same slices as the identity grid, so `Slicing.CropMatchesSlicing` also says which full-frame index each output sample uses for them.
- Order validation is left out. The wrapper does not check the order; an unsupported order is refused inside scipy or the C extension.
- Batch shape checking is left out. The wrapper takes the shape from the first array and never compares the others, so `CallPlan.BatchMatchesSingles` assumes equal shapes rather than modelling a shape-mismatch error.
- Python's `assert` statements vanish under `python -O`. The model treats them as always active.
- A crop with more entries than the array's rank is accepted, and the extra entries are ignored, as in the code. numpy would refuse such a crop in the reference, so the consistency lemmas require exactly one entry per axis.
- Random data, random displacements and the `unittest` comparisons with float tolerances (lines 83-164) are test plumbing.
- `np.zeros` allocation and array contents are not modelled. Only shapes and dtypes are.

## Findings

| source | as written | input that shows it | evidently intended | confidence | as-written member | corrected member |
|---|---|---|---|---|---|---|
| deform_grid_test.py:47 | `stop = (crop[d].stop or shape[d])` treats an explicit stop of 0 as a missing stop and widens it to the whole axis | shape `(4,)`, crop `(slice(2, 0),)`: the wrapper outputs extent 2 from offset 2, while the reference's `arange(4)[2:0]` is empty | default only a missing stop (`shape[d] if stop is None else stop`), so a stop of 0 is refused as an empty range | medium, not executed | `Slicing.ZeroStopCounterexample` (about `Crop.NormalizeCrop`) | `Crop.NormalizeCropIntended`, with `Slicing.CropMatchesSlicing` and `CallPlan.IntendedPlanMatchesReference` proved for every accepted crop |

`CallPlan.PlanCall` keeps the code's behaviour. `CallPlan.PlanCallIntended` uses
the corrected normaliser. `Crop.StopRulesAgreeWithoutZeroStops` shows the two
agree on every crop that has no explicit stop of 0.
