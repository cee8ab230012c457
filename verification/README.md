# PK modelling process for DCE-MRI, modelled in Dafny

This project models the orchestration layer of the quantiphyse-dce plugin's
pharmacokinetic (PK) modelling process (`dce/process.py`). The process has
three parts:

- `PkModellingProcess.run` reads the options and the data store. It selects
  voxels with an ROI, normalises each selected voxel's signal curve by its
  pre-injection baseline, and hands the subset to a worker.
- The worker `_run_pk` converts units and builds the fitting engine. It runs
  the fit in about five chunks, putting progress values on a queue, and
  returns the engine's outputs.
- `timeout` forwards the latest queued progress. `finished` scatters the
  fitted parameters back to full volumes, clamps them, derives kep, caps
  Ktrans and kep at a percentile, and publishes six volumes.

Modules, one per concern:

- `Values` (values.dfy): `Option`, `Result`, and option values (`Num` or `Text`).
- `VoxelMask` (masking.dfy): a boolean mask over the flattened voxels.
  `Gather` keeps the selected voxels in order (`x[mask]`). `Scatter` writes
  values back to a zero-filled volume (`vol[mask] = vals`). Lemmas prove that
  the two are inverse to each other.
- `SignalNorm` (baseline.dfy):
  - the baseline window `int(1 + tinj / dt)`, with Python's truncation and
    slicing;
  - the baseline mean;
  - normalisation to enhancement, `x / (b + 0.001) - 1`, and reconstruction,
    `(f + 1) * b`.
- `FitDispatch` (dispatch.dfy): the worker.
  - Units and the time axis.
  - The chunk schedule, with numpy's round-half-even.
  - The fitting engine as a stub datatype. It answers each call with a log
    string, or raises on one chosen call.
  - The method `RunPk`. It is proved to follow the call-and-progress protocol
    exactly, and to return the engine's outputs precisely when no call raises.
- `ResultMaps` (reconstruct.dfy): post-processing.
  - The clamps: exactly 2.0 becomes 0, as the source's arithmetic does.
  - The ve floor and kep.
  - Percentile capping, with the percentile as a function parameter.
  - In-place array methods, each proved against its map function.
  - The six published volumes.
- `PkProcess` (process.dfy):
  - The option handling: `pop` with the error cases, the suffix, ROI
    selection and the baseline log line.
  - The specification function `Prepare` for `run`, split into stages.
  - The class `PkModellingProcess`. Its fields are the ones `run` sets and
    `finished` reads, plus the progress queue and the emitted progress.
    `Run` is proved equal to `Prepare`. `Timeout` is a drain loop. `Finished`
    appends the worker's log and calls `ResultMaps.Publish`, which builds the
    maps in arrays and is proved equal to `Outputs`.

`run` does not reject an empty selection: `_run_pk` raises "no unmasked data
found" inside the worker (dce/process.py:44-45). The model does the same:
`Run` succeeds with zero voxels, and `RunPk` fails with `NoUnmaskedData`.

Several outside things are parameters instead:

- The data store's contents are an input. Its additions are returned as a
  list of writes.
- The fitting engine (`PyPk`, compiled C++) is a parameter.
- `np.percentile` is a parameter.

## Model

| member | source | states |
|---|---|---|
| VoxelMask.Count | dce/process.py:152-154 | the number of selected voxels is at most the number of voxels |
| VoxelMask.CountPrefix | dce/process.py:152-154 | a selected voxel's rank (the number of selected voxels before it) is below the number selected |
| VoxelMask.RankIncreasing | dce/process.py:152-154 | selected voxels keep their order: a later selected voxel has a strictly larger rank |
| VoxelMask.CountMonotone | dce/process.py:152-154 | the rank never decreases along the volume |
| VoxelMask.CountAll | dce/process.py:118-121 | an all-true mask selects every voxel, and each voxel's rank is its index |
| VoxelMask.AllVoxels | dce/process.py:118-121 | without an ROI, a mask of ones selects all n voxels, each at its own index |
| VoxelMask.Gather | dce/process.py:152-154 | the subset has one entry per selected voxel |
| VoxelMask.GatherAt | dce/process.py:152-154 | the subset's entry at a selected voxel's rank is that voxel's value |
| VoxelMask.Scatter | dce/process.py:182-183 | the scattered volume has one entry per voxel |
| VoxelMask.ScatterAt | dce/process.py:182-198 | a selected voxel receives the value of its rank, and any other voxel gets zero |
| VoxelMask.ScatterGather | dce/process.py:182-198 | scattering a gathered subset back gives the original volume, zeroed outside the mask |
| VoxelMask.GatherScatter | dce/process.py:182-198 | gathering a scattered volume returns exactly the values scattered |
| VoxelMask.ScatterNew | dce/process.py:182-183 | a fresh zero-filled array with `arr[mask] = vals` applied equals `Scatter` |
| SignalNorm.Trunc | dce/process.py:137 | `int()` truncates toward zero, for both signs |
| SignalNorm.BaselinePointsFloor | dce/process.py:137 | for tinj >= 0 and dt > 0 the window is 1 + floor(tinj / dt), so at least one sample |
| SignalNorm.Head | dce/process.py:139 | `curve[:k]` as Python slices it, including negative and oversized k |
| SignalNorm.MeanBounds | dce/process.py:139 | a mean lies between the bounds of the values averaged |
| SignalNorm.BaselineIgnoresLater | dce/process.py:139 | the baseline depends only on the samples inside the window |
| SignalNorm.BaselineBounds | dce/process.py:139 | a baseline lies within the bounds of its curve |
| SignalNorm.Enhance | dce/process.py:157 | enhancement f satisfies (f + 1)(b + 0.001) = x |
| SignalNorm.EnhanceCurve | dce/process.py:157 | the same, at every sample of a curve |
| SignalNorm.ReconstructAfterEnhance | dce/process.py:201 | reconstruction after normalisation scales a sample by b / (b + 0.001), and returns it unchanged exactly when it is zero |
| SignalNorm.CurveRoundTrip | dce/process.py:201 | the same, sample by sample, for a whole curve |
| FitDispatch.Minutes | dce/process.py:26-28 | seconds to minutes: m * 60 equals the input |
| FitDispatch.Seconds | dce/process.py:33-34 | milliseconds to seconds: s * 1000 equals the input |
| FitDispatch.TimeAxis | dce/process.py:24-26 | one time point per sample |
| FitDispatch.TimeAxisSpacing | dce/process.py:24-26 | the time axis starts at 0 and is spaced dt / 60 minutes |
| FitDispatch.RoundHalfEvenNearest | dce/process.py:58-60 | `np.around` rounds to the nearest integer, with ties to even |
| FitDispatch.RoundFifth | dce/process.py:58 | rounding N / 5 is (N + 2) div 5 |
| FitDispatch.SizeStep | dce/process.py:58 | a chunk holds at least one voxel |
| FitDispatch.StepsBounds | dce/process.py:58-60 | a non-empty selection runs 1 to 7 chunks, which cover N to within half a chunk |
| FitDispatch.StepsPositive | dce/process.py:58-66 | a non-empty selection runs at least one chunk |
| FitDispatch.ScheduleExamples | dce/process.py:58-60 | N = 9 runs 4 chunks of 2 (under N) and N = 11 runs 6 chunks of 2 (over N) |
| FitDispatch.ChunksCalls | dce/process.py:66-72 | k chunks make k `run(size_step)` calls |
| FitDispatch.ChunksPuts | dce/process.py:66-69 | before chunk ii > 0 the worker queues ii / steps * 100 |
| FitDispatch.ProtocolCalls | dce/process.py:47-77 | the engine calls are construction, bounds, parameters, init, one run per chunk and the three getters: steps + 7 calls |
| FitDispatch.ProtocolPuts | dce/process.py:65-80 | the queue receives 1, then each chunk's progress, then 100 |
| FitDispatch.QueuedRange | dce/process.py:65-80 | every queued value lies in (0, 100], the last is 100, and the chunk values increase |
| FitDispatch.QueuedIncreasing | dce/process.py:58-80 | the whole queue, the initial 1 included, strictly increases |
| FitDispatch.StartEngine | dce/process.py:47-53 | the setup calls are made in order, and the first call that raises stops them |
| FitDispatch.RunChunks | dce/process.py:66-72 | the chunk loop queues progress and runs chunks in order, accumulates the logs, and stops at the chunk that raises |
| FitDispatch.ReadOutputs | dce/process.py:75-77 | the three getters are called in order, stopping at one that raises |
| FitDispatch.RunPk | dce/process.py:18-84 | an empty selection fails with "no unmasked data". Otherwise the events are a prefix of the protocol, and the run succeeds exactly when no call raises. On success the events are the whole protocol and the outputs are the engine's, with the concatenated log. On failure the cause is the engine's message and the last event is the call that raised |
| ResultMaps.ClampParam | dce/process.py:183 | values below 2 are kept, values above 2 become 2, and exactly 2 becomes 0 |
| ResultMaps.FloorZero | dce/process.py:187 | negatives become 0, and non-negatives are kept |
| ResultMaps.Kep | dce/process.py:189-192 | kep lies in [0, 2]: a non-positive (or non-finite) ratio gives 0, a ratio in (0, 2) is kept, and a ratio of 2 or more gives 2 |
| ResultMaps.KepPositive | dce/process.py:189-192 | with the ve floor in place, kep is positive exactly when Ktrans is |
| ResultMaps.MapsAt | dce/process.py:182-198 | voxel k of the Ktrans, ve, offset and vp maps holds the processed parameters of the fitted voxel of the same rank, and 0 off the mask |
| ResultMaps.CurveAt | dce/process.py:200-204 | voxel k of the curve volume holds the reconstructed fitted curve, and all zeros off the mask |
| ResultMaps.ParamBounds | dce/process.py:182-187 | ve lies in [0, 2] and Ktrans is at most 2 everywhere |
| ResultMaps.KtransKeepsNegative | dce/process.py:183 | Ktrans, unlike ve, is not floored: a fitted -1 is kept as -1 in the Ktrans map before the cap |
| ResultMaps.KepBounds | dce/process.py:189-192 | kep lies in [0, 2] everywhere, and is 0 off the mask |
| ResultMaps.ThresholdCaps | dce/process.py:218-221 | after capping at p no value exceeds p, values at or below p are unchanged, and capping twice is capping once |
| ResultMaps.ThresholdZero | dce/process.py:218-221 | a zero voxel stays zero exactly when the percentile is non-negative |
| ResultMaps.FloorInPlace | dce/process.py:187 | `ve *= ve > 0` in place equals the floored map |
| ResultMaps.KepArray | dce/process.py:189-192 | the kep array computed from the two arrays equals `KepMap` |
| ResultMaps.CapInPlace | dce/process.py:219 | `vol[vol > p] = p` in place equals `Threshold` |
| ResultMaps.OutputNamesDistinct | dce/process.py:223-228 | the six output names differ, whatever the suffix |
| ResultMaps.Outputs | dce/process.py:209-228 | six writes named ktrans, ve, kep, offset, vp and model_curves plus the suffix. Only ktrans becomes current. Five maps have the spatial shape and the curves have the full shape, with one entry per voxel |
| ResultMaps.OutputsCapped | dce/process.py:217-221 | published Ktrans and kep are each capped at the percentile of their own uncapped volume |
| ResultMaps.OutputsOnMask | dce/process.py:182-204 | a selected voxel publishes its clamped Ktrans, clamped and floored ve, fitted offset and vp, and reconstructed curve of `shape[3]` samples |
| ResultMaps.Publish | dce/process.py:182-228 | the maps built in arrays (scatter into zero-filled arrays, floor ve in place, derive kep, cap Ktrans and kep in place) are exactly `Outputs` |
| ResultMaps.PublishedKep | dce/process.py:189-221 | for a percentile within its volume's range, published kep lies in [0, 2] and is 0 outside the selection |
| ResultMaps.PublishedKtransOffMask | dce/process.py:182-219 | outside the selection, published Ktrans is 0 exactly when the Ktrans percentile is not negative |
| ResultMaps.OutputsOffMask | dce/process.py:182-204 | any other voxel publishes zero ve, offset and vp, a zero curve of `shape[3]` samples, and zero Ktrans and kep before capping |
| ResultMaps.UniformFit | dce/process.py:182-221 | a uniform fit of (1.5, 0.3, 0.1, 0.05) gives uniform maps with kep clamped to 2, and capping at the uniform value changes nothing |
| PkProcess.PopAllSpec | dce/process.py:125-132 | popping distinct keys succeeds exactly when all are present and numeric. It yields their values in order and removes exactly those keys |
| PkProcess.PopNumbers | dce/process.py:125-132 | popping r1, r2, dt, tinj, tr, te, fa and ve-thresh succeeds exactly when all eight are given as numbers, and yields them in that order |
| PkProcess.Suffix | dce/process.py:108-109 | the stored suffix is empty exactly when the option is, and otherwise is "_" followed by the option |
| PkProcess.DecimalRoundTrip | dce/process.py:138 | `%i` formatting can be parsed back to the number |
| PkProcess.PrepareOptions | dce/process.py:125-134 | a successful run takes each worker setting from its option, with dose defaulting to 0 and ve-thresh kept for `finished`. It consumes exactly the options it reads. A failure keeps the baseline and shape |
| PkProcess.PrepareDose | dce/process.py:133-134 | dose defaults to 0 and model is required. A successful run takes the popped numbers in order |
| PkProcess.PrepareData | dce/process.py:136-159 | appends the baseline log line and records the mask. Mismatched sizes or an unusable baseline fail. Otherwise it records the baseline and shape and passes the selected T10 values with one normalised curve per selected voxel |
| PkProcess.PrepareDataOk | dce/process.py:136-158 | on success, each selected voxel's baseline is the mean of its window, and its worker curve is its normalised signal |
| PkProcess.PrepareSelects | dce/process.py:98-160 | the whole of `run` on success: the mask comes from the chosen ROI, and sizes agree. The log is the baseline line, the worker gets the selected T10 values, and each selected voxel's normalised curve sits at its rank |
| PkProcess.PrepareOptionsPassed | dce/process.py:125-134 | the whole of `run` on success: every setting equals its option, dose defaults to 0, and the leftover options are exactly those `run` does not read |
| PkProcess.PrepareRoiNotFound | dce/process.py:99-106 | `run` fails with "ROI not found" exactly when a named ROI is absent. It then changes nothing but the log, which it clears |
| PkProcess.PrepareSuffix | dce/process.py:108-109 | once the ROI is found, the stored suffix is the formatted option |
| PkProcess.PrepareErrKeeps | dce/process.py:98-160 | a failed `run` keeps the previous baseline and shape. It also keeps the mask, unless it failed after recording it |
| PkProcess.DrainsIncrease | dce/process.py:163-167 | successive drains of the worker's queue emit strictly increasing fractions in (0, 1], and the last report gives 1 |
| PkProcess.PkModellingProcess.constructor | dce/process.py:90-96 | empty suffix, threshold 0, no mask or baseline, empty shape |
| PkProcess.PkModellingProcess.Run | dce/process.py:98-161 | the object's new state and the returned worker arguments (or error) are exactly those of `Prepare` |
| PkProcess.PkModellingProcess.RunOptions | dce/process.py:125-134 | the same for the option-reading stage (`PrepareOptions`) |
| PkProcess.PkModellingProcess.RunDose | dce/process.py:133-134 | the same for the dose and model stage (`PrepareDose`) |
| PkProcess.PkModellingProcess.RunData | dce/process.py:136-159 | the same for the baseline and subset stage (`PrepareData`) |
| PkProcess.PkModellingProcess.Timeout | dce/process.py:163-167 | empties the queue and emits only the last queued value divided by 100, or nothing when the queue was empty |
| PkProcess.PkModellingProcess.Finished | dce/process.py:169-228 | a failed worker changes nothing. A successful one appends its log and returns exactly `Outputs` of its fit, with the recorded mask, baseline, shape, suffix and threshold |

## Left out

- The fitting engine `PyPk` (compiled C++) is not part of this model. It is a stub whose logs, failure point and outputs are parameters. Its log text and its numerical fit are not modelled.
- Multiprocessing, the queue's thread safety, Qt signals and the `BackgroundProcess` base class (`start`, `status`, `output`) are left out. `Run` returns the worker's arguments, `RunPk` is the worker, and `Finished` receives the worker's result. The queue is a sequence field.
- `time.sleep` and the `debug` calls have no effect on the state, so they are left out.
- The residual volume (lines 206-207) is computed but never published by the source, so it is not modelled.
- Floating point is not modelled: all arithmetic is exact on reals.
  - An empty baseline window or a baseline of exactly -0.001 makes numpy produce NaN or infinity and carry on. The model rejects that case as `NonFinite` instead.
  - kep's NaN/infinity replacement is modelled as a zero denominator mapping to 0, which is the only way exact reals can produce it.
- `np.percentile` is a function parameter. Its error for a ve-thresh outside [0, 100] is not modelled.
- Option values are numbers or text only. Option names that `run` does not read become `Other` keys. Any other Python value cannot be represented at all. That includes an explicit `roi: None`, which the source treats as "use the current ROI" (dce/process.py:100-102).
- PkProcess.PopNum: a text value for a numeric option fails at once with `WrongType`. The source only fails where the value is first used in arithmetic: dt and tinj in `run`, r1, r2, tr, te, fa and dose in the worker or the engine, and ve-thresh only at `np.percentile` in `finished` (dce/process.py:218), after the whole fit has run.
- PkProcess.PrepareSuffix: a non-text suffix fails with `WrongType` and leaves the suffix field unchanged. The source has already stored the raw value when the concatenation with "_" fails.
- PkProcess.PopAll: its own contract states only the result length and the error kinds. The rest is stated by PopAllSpec.
- SignalNorm.ReconstructCurve: its own contract states only the length. Its meaning is stated by CurveRoundTrip.
- ResultMaps.KtransMap: its own contract states only the length. Its meaning is stated by MapsAt and ParamBounds.
- ResultMaps.VeMap: its own contract states only the length. Its meaning is stated by MapsAt and ParamBounds.
- ResultMaps.KepMap: its own contract states only the length. Its meaning is stated by KepBounds.
- ResultMaps.CurveMap: its own contract states only the length. Its meaning is stated by CurveAt.
- ResultMaps.Threshold: its own contract states only the length. Its meaning is stated by ThresholdCaps.
- PkProcess.PkModellingProcess.Finished: it requires the worker's result to hold one parameter row and one curve of `shape[3]` samples per selected voxel (`ResultMaps.FitShaped`), which is the engine's contract. The source would raise on a mismatch at dce/process.py:201-204.
- `Image` does not tie its rows to its shape. A numpy array always has `shape[3]` samples per row and one row per spatial voxel, but the model does not require either. `Prepare` passes each row through at the length it has.
- ResultMaps.PublishedKep: it assumes that the percentile of a non-empty volume lies within that volume's range (`PercentileLike`), as `np.percentile` guarantees for a percentage in [0, 100]. Without that assumption, `Outputs` alone allows any cap value.
- The model only checks that the shape has four dimensions. `np.reshape` in `run` and `finished` is the identity on the flattened, row-major data; the model does not check that the shape's product matches the number of voxels.
- The `model` option is passed to the engine uninterpreted.
