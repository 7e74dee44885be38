# faster-membranes: a Dafny model of the training and labelling bookkeeping

faster-membranes trains and deploys a sliding-window convolutional network that
detects cell membranes in electron-microscopy volumes. Caffe does the numerical
work. Around it sits bookkeeping in Python that this project models and proves
things about:

- **Labels and masks of `src/emcnn.py`** (modules `Labels`, `Border`, `Predict`):
  - the omitted-label list and its pixel count (`_omit_labels`);
  - the ISBI relabelling in `_load_data`;
  - the border arithmetic (`border_size`, `prune_border_3d`, `prune_border_4d`);
  - the validation mask and the class estimates of `_train_network`;
  - the scatter of per-class values into the `Prob` volume in `predict`.
- **Minibatch handling in `src/emcnn.py`** (modules `Symmetry`, `Tiles`, `Train`):
  - the eight symmetries of the square used for augmentation (`_xform_minibatch`);
  - the tile fill into preallocated buffers;
  - the epoch loop of `train_one_epoch`.
- **The solver class `SGDSolverMemoryData` of `src/pycaffe2.py`** (module `Solver`):
  - parameter validation;
  - the iteration counter and its predicates;
  - the `step` and `inv` learning-rate policies and their errors;
  - momentum SGD over the parameter blobs, with NaN detection;
  - the window of the last 30 losses.
- **The ISBI preprocessing script `src/preprocess.py`** (module `Preprocess`): the
  relabelling, the conversion to signed bytes, the train/valid/test slicing and the
  brightness mask.
- **The two-threshold labelling of `Data/Kasthuri11/threshold_labels.py`** (module
  `Threshold`).

The network, files, randomness and the clock are not modelled. Gradients, network
outputs, the voxels a pixel generator yields and the symmetry drawn at random are all
inputs. Volumes that the source updates in place are `array3`/`array4`. The solver is
a class whose fields are the counter, the velocity map, the loss window and the
parameter blobs. Expression-only code (pruning, symmetries, the learning rate) becomes
functions on sequences.

Python semantics are written out wherever they matter:
- floor division and modulo;
- negative list indices;
- the wrap-around of `astype(np.int8)`;
- numpy's broadcasting of a 1x1 window into a tile;
- the first maximum returned by `argmax`.

One behaviour is an assumption rather than a documented rule: when a fancy-index
assignment names the same voxel more than once, numpy does not say which value
wins. The model assumes the last one does.

## Model

| member | source | states |
|---|---|---|
| Volume.ReplaceWhere | src/emcnn.py:252-253 | the masked assignment `A[A == from] = to` changes exactly the elements equal to `from`, to `to`; every other element keeps its value |
| Volume.SetWhereAbove | src/preprocess.py:92-94 | the brightness mask sets a label to the given value exactly where the pixel exceeds the threshold and leaves every other label unchanged |
| Border.BorderSize | src/emcnn.py:187 | the border size is the tile height floor-divided by 2: `2*bs <= rows < 2*bs + 2` |
| Border.TileSideMatchesOddHeight | src/emcnn.py:375 | the window side `2*bs + 1` equals the tile height exactly when that height is odd |
| Border.PruneAgreesForPositiveBorder | src/emcnn.py:188-189 | for `bs > 0`, the Python slice `bs:-bs` of a grid equals dropping `bs` rows and columns at each end |
| Border.PruneGridAt | src/emcnn.py:188-189 | for a `h x w` grid, the pruned grid is `(h-2bs) x (w-2bs)` and its element `(i, j)` is element `(i+bs, j+bs)` of the input |
| Border.PruneBorder3dAt | src/emcnn.py:188 | `prune_border_3d` keeps the slice axis and shrinks the last two axes by `2*bs`; element `(s,i,j)` is input element `(s,i+bs,j+bs)` |
| Border.PruneBorder4dAt | src/emcnn.py:189 | `prune_border_4d` keeps both leading axes and shrinks the last two by `2*bs`; element `(a,b,i,j)` is input element `(a,b,i+bs,j+bs)` |
| Border.ZeroBorderEmptiesVolume | src/emcnn.py:188 | with `bs == 0` the code as written empties every slice, while the corrected pruning is the identity |
| Labels.Count | src/emcnn.py:210 | `np.sum(Y == v)` is at most `Y.size`, and positive exactly when `v` occurs in `Y` |
| Labels.Unique | src/emcnn.py:200 | `np.unique` is strictly increasing and holds exactly the values of `Y` |
| Labels.Negatives | src/emcnn.py:201 | filtering by `< 0` keeps the order and exactly the negative values |
| Labels.CountInAdd | src/emcnn.py:208-210 | adding one new label to the omitted set adds its pixel count to the number of omitted pixels |
| Labels.SumCountsIsCountIn | src/emcnn.py:208-210 | without duplicate entries, the accumulated per-label counts equal the number of pixels whose label is in the omit list, so at most `Y.size` |
| Labels.DuplicateOmitCountsTwice | src/emcnn.py:204-212 | a label that is both negative in `Y` and an extra omission is counted twice: `Y = [-1]`, extras `[-1]` give 2 omitted pixels out of 1 |
| Labels.CountOmitted | src/emcnn.py:208-210 | the accumulation loop `numOmitted += np.sum(Y==yi)` ends with the sum of the per-label counts, one term per entry of the omit list |
| Labels.OmitLabels | src/emcnn.py:193-212 | the omit list is the distinct negative labels in increasing order followed by `extraOmits`; a value is in it iff it is a negative label of `Y` or an extra; the count is the sum of per-label counts; without duplicates the percentage lies in `[0, 100]` |
| Labels.PercentBound | src/emcnn.py:212 | a count of at most `Y.size` gives a percentage in `[0, 100]` |
| Labels.IsbiLabelValues | src/emcnn.py:252-253 | the relabelling sends 0 to 1 and 255 to 0, and leaves every other value alone |
| Labels.RemapOrderMatters | src/preprocess.py:77-78 | in the reverse order the two assignments would send both 0 and 255 to 1 |
| Labels.RemapIsbiLabels | src/emcnn.py:248-253 | relabelling happens iff the distinct labels are exactly `{0, 255}`; it applies the ISBI map element-wise, leaves `Y` untouched otherwise, and leaves exactly the labels `{0, 1}` |
| Symmetry.ApplyAt | src/emcnn.py:304-326 | each of the eight ops maps a square tile to a square tile of the same side, and element `(i, j)` of the result is the tile element at the op's source index |
| Symmetry.M1At | src/emcnn.py:307-308 | `X[..., ::-1, :]`: element `(i, j)` of the result is element `(n-1-i, j)` of the tile |
| Symmetry.M2At | src/emcnn.py:310-311 | `X[..., ::-1]`: element `(i, j)` of the result is element `(i, n-1-j)` of the tile |
| Symmetry.D1At | src/emcnn.py:313-314 | the transpose of the last two axes: element `(i, j)` is element `(j, i)` |
| Symmetry.R1At | src/emcnn.py:316-317 | the quarter turn `D1 . M2`: element `(i, j)` is element `(j, n-1-i)` |
| Symmetry.R2At | src/emcnn.py:319-320 | the half turn `M2 . M1`: element `(i, j)` is element `(n-1-i, n-1-j)` |
| Symmetry.R3At | src/emcnn.py:322-323 | `D2 . M2`: element `(i, j)` is element `(n-1-j, i)` |
| Symmetry.D2At | src/emcnn.py:325-326 | the anti-diagonal flip `R1 . M1`: element `(i, j)` is element `(n-1-j, n-1-i)` |
| Symmetry.ApplyKeepsShape | src/emcnn.py:339-349 | every op keeps a square tile square with the same side |
| Symmetry.M1M1 | src/emcnn.py:307-308 | reversing the rows twice is the identity |
| Symmetry.M2M2 | src/emcnn.py:310-311 | reversing the columns twice is the identity |
| Symmetry.D1D1 | src/emcnn.py:313-314 | transposing a square tile twice is the identity |
| Symmetry.R1Twice | src/emcnn.py:316-320 | two quarter turns `R1 = D1 . M2` make the half turn `R2 = M2 . M1` |
| Symmetry.R1Thrice | src/emcnn.py:316-326 | three quarter turns make `R3 = D2 . M2`, with `D2 = R1 . M1` |
| Symmetry.R1FourTimes | src/emcnn.py:316-317 | four quarter turns are the identity |
| Symmetry.R2R2 | src/emcnn.py:319-320 | the half turn is an involution |
| Symmetry.D2D2 | src/emcnn.py:325-326 | the anti-diagonal flip is an involution |
| Symmetry.XformMinibatch | src/emcnn.py:338-351 | the transformed minibatch is a fresh array of the same shape; every (example, channel) tile is the chosen op applied to the input tile |
| Tiles.FillMinibatch | src/emcnn.py:386-399 | with something to copy, the fill raises `IndexError` when `Xi` has no channel 0 and otherwise `ValueError` when the window does not broadcast into the tile (the tile side is not `2R+1` and `R > 0`); a failed fill writes nothing. On success `Xi[jj,0,u,v] = X[z, r-R+u, c-R+v]` (for `R == 0` the single pixel fills the whole tile) and `yi[jj] = Y[z,r,c]` for each sampled voxel; rows at or beyond `Idx.shape[0]` and other channels keep their old values |
| Predict.AfterScatterMiss | src/emcnn.py:621 | a voxel that is not among a batch's indices keeps its value |
| Predict.AfterScatterHit | src/emcnn.py:621 | under the last-write assumption, a voxel takes the value of the last batch row that names it |
| Predict.NeverSampledStaysMinusOne | src/emcnn.py:572-573 | a voxel that no batch names keeps the fill value -1 |
| Predict.SampledHoldsItsValue | src/emcnn.py:618-621 | under the last-write assumption, a sampled voxel holds the value from the last row of the last batch that names it |
| Predict.MinusOneIffNeverSampled | src/emcnn.py:550-552 | with non-negative network outputs, `Prob` is -1 at a voxel iff the generator never yielded that voxel |
| Predict.ScatterChannel | src/emcnn.py:621 | one fancy assignment sets channel `j` to the scattered values and leaves every other channel unchanged |
| Predict.ScatterBatch | src/emcnn.py:618-621 | the loop over classes scatters every channel of one batch |
| Predict.PredictVolume | src/emcnn.py:572-621 | `Prob` is a fresh `(channels, depth, height, width)` array; each entry is the value the batches leave, starting from -1; voxels never yielded are -1 in every channel |
| Predict.ArgMax | src/emcnn.py:523 | `argmax` returns an index of a maximum, and every earlier entry is strictly smaller (the first maximum) |
| Predict.ValidationMask | src/emcnn.py:518-519 | `Mask` is false exactly where the validation label is negative |
| Predict.ArgMaxChannels | src/emcnn.py:523 | `argmax` raises `ValueError` iff `Prob` has no class axis entries; otherwise `Yhat` is fresh and at each voxel is the first class of largest probability |
| Predict.MaskEstimates | src/emcnn.py:524 | `Yhat` becomes -1 exactly where `Mask` is false, and is unchanged elsewhere |
| Predict.ValidationEstimates | src/emcnn.py:518-524 | `ValueError` iff `Prob` has no classes; otherwise `Yhat` is -1 exactly where the validation label is negative, and elsewhere it is a valid class, the first of largest probability |
| Solver.CheckParam | src/pycaffe2.py:39-43 | the parameters pass iff the policy is `step` or `inv` and the solver type is SGD; otherwise `ValueError`, with the policy checked first |
| Solver.SGDSolverMemoryData.Create | src/pycaffe2.py:38-58 | construction fails with the validation's `ValueError` exactly when the parameters are refused; otherwise a fresh solver at iteration 0 with no velocities and an empty loss window |
| Solver.FloorDiv | src/pycaffe2.py:135 | Python 2 integer division rounds toward minus infinity |
| Solver.FloorMod | src/pycaffe2.py:65 | Python's `%` takes the sign of the divisor and lies strictly inside it |
| Solver.LearningRate | src/pycaffe2.py:134-141 | the rate fails exactly when: `step` has a zero step size (`ZeroDivisionError`) or `gamma == 0` with a negative exponent (numpy's infinite power, `NonFinite`); `inv` has a zero base `1 + gamma*iter` with `power > 0` (`ZeroDivisionError`) or a negative base with a fractional `power` (`ValueError`); or the policy is neither (`RuntimeError`) |
| Solver.InvRate | src/pycaffe2.py:137-139 | under `inv`, `power == 0` gives `base_lr`; a positive base gives `base_lr * pow(base, -power)`; a whole `power` raises only on a zero base; a zero base with `power > 0` raises `ZeroDivisionError` |
| Solver.StepExponentMonotone | src/pycaffe2.py:135 | the `step` exponent `iter // stepsize` does not decrease as the iteration grows |
| Solver.FloorDivUnique | src/pycaffe2.py:135 | the exponent is the unique `q` with `stepsize*q <= iter < stepsize*(q+1)` |
| Solver.StepRate | src/pycaffe2.py:134-136 | for a positive step size the rate at iteration `i >= 0` is `base_lr * gamma^(i // stepsize)` |
| Solver.StepRateConstantInBlocks | src/pycaffe2.py:135-136 | the rate is the same for every iteration of the block `k*stepsize .. k*stepsize + stepsize - 1`, namely `base_lr * gamma^k` |
| Solver.StepRateNonIncreasing | src/pycaffe2.py:134-136 | with `0 <= gamma <= 1` and a non-negative base rate, the `step` rate never increases |
| Solver.TimeForSnapshot | src/pycaffe2.py:75-76 | the intended snapshot rule: never for interval 0, otherwise exactly when Python's `iter % snapshot` is 0 |
| Solver.SGDSolverMemoryData.IsTimeForSnapshot | src/pycaffe2.py:75-76 | `is_time_for_snapshot` under the intended rule: never for interval 0, and otherwise true iff the code as written returns true |
| Solver.SGDSolverMemoryData.IsTrainingComplete | src/pycaffe2.py:71-72 | training is complete once the counter has reached `max_iter`; `Step` keeps a completed solver completed |
| Solver.IsTimeForSnapshotAsWritten | src/pycaffe2.py:75-76 | the check raises exactly when the snapshot interval is 0, and otherwise agrees with the corrected rule |
| Solver.SnapshotZeroRaises | src/pycaffe2.py:75-76 | with interval 0 the code raises `ZeroDivisionError` where no snapshot is intended |
| Solver.SnapshotCountIsQuotient | src/pycaffe2.py:75-76 | with the corrected rule, iterations `1..n` contain `n / s` snapshot points for an interval `s > 0`, and none for 0 |
| Solver.ShowStateAsWritten | src/pycaffe2.py:65 | the display gate as written raises iff verbose with interval 0, and can only show progress for an interval above 1 |
| Solver.ShowState | src/pycaffe2.py:65 | the intended display gate: only when verbose with a positive interval; every iteration for interval 1; for intervals above 1, exactly when Python's `iter % display` is 1 |
| Solver.ShowStateAgreesAboveOne | src/pycaffe2.py:65 | for intervals above 1 the gate as written and the corrected gate agree |
| Solver.ShowStateDiscrepancy | src/pycaffe2.py:65 | interval 0 raises where nothing should show; interval 1 never shows where every iteration should |
| Solver.LastN | src/pycaffe2.py:219-220 | popping from the front until at most `n` remain leaves the last `min(n, len)` entries |
| Solver.LastNOfLastN | src/pycaffe2.py:215-220 | trimming before recording a loss and trimming after give the same window |
| Solver.HistoryIsLastTruthy | src/pycaffe2.py:215-220 | after any run of steps the window holds the last 30 truthy losses of the whole run, in order |
| Solver.FirstVisitIsGradientStep | src/pycaffe2.py:196-199 | without a stored velocity (default 0), the momentum update is the plain gradient step `w - alpha*diff` |
| Solver.DecayAfterMomentum | src/pycaffe2.py:197-208 | decay after the momentum step gives Caffe's folded update minus `alpha*decay*Vnext` |
| Solver.SGDSolverMemoryData.RecordLoss | src/pycaffe2.py:215-220 | the window becomes the last 30 entries of the old window plus the new loss, when that loss is truthy; the counter, velocities and blobs are unchanged |
| Solver.SGDSolverMemoryData.UpdateBlobs | src/pycaffe2.py:180-208 | with no NaN, every blob gets its momentum update, weight decay and new stored velocity; with a NaN, the loop stops at the first blob holding one, and exactly the blobs before it are updated |
| Solver.SGDSolverMemoryData.SgdStep | src/pycaffe2.py:145-229 | `_step` at `currIter`: a failing rate raises its error and changes nothing; a NaN gradient raises `RuntimeError`, leaving the blobs before it updated and the loss window alone; otherwise every blob is updated, the loss recorded and the output returned; the counter never moves |
| Solver.PrintStateCanRaise | src/pycaffe2.py:87 | `print_state` asks for the learning rate at the new count, which can raise although the rate of the step just taken did not: `inv` with `gamma == -0.25`, `power == 1` has a rate at iteration 3 and raises `ZeroDivisionError` at 4 |
| Solver.SGDSolverMemoryData.Step | src/pycaffe2.py:61-68 | `step` with the intended display gate: `_step` at the old iteration, and the counter advances by exactly 1 iff it completed. Progress shows under the corrected gate; when it shows, the error of `print_state`'s rate at the new count (other than numpy's infinite value) is raised, with the step already taken; otherwise the output is returned. Completed training stays completed |
| Solver.SGDSolverMemoryData.StepAsWritten | src/pycaffe2.py:61-68 | `step` as written: the same `_step` effect and counter; after a completed step, verbose with `display == 0` raises `ZeroDivisionError` with the blobs and counter already changed; otherwise progress shows iff `iter % display == 1`, and `print_state` then raises its rate's error at the new count |
| Preprocess.CheckBrightQuant | src/preprocess.py:54-55 | the quantile passes iff `0 < brightQuant <= 1`; otherwise `AssertionError` |
| Preprocess.RemapLabels | src/preprocess.py:77-78 | the two in-place assignments leave every label mapped by the ISBI convention |
| Preprocess.ToInt8 | src/preprocess.py:81 | the signed-byte conversion lies in `-128..127` and is congruent to the input modulo 256 |
| Preprocess.ToInt8OfByte | src/preprocess.py:81 | bytes below 128 keep their value, and bytes 128..255 become the value minus 256 |
| Preprocess.AsInt8 | src/preprocess.py:81 | `astype(np.int8)` gives a fresh volume of the converted values |
| Preprocess.TakeSlices | src/preprocess.py:83-85 | indexing with a slice list raises `IndexError` iff some index is out of range; otherwise slice `k` of the result is slice `slices[k]` of the input, with negative indices counted from the end |
| Preprocess.MakeSplit | src/preprocess.py:83-94 | a split holds the requested slices of `X`, and of `Y` as signed bytes, with -1 wherever the pixel exceeds the threshold; `IndexError` on a bad slice |
| Preprocess.PreprocessIsbi | src/preprocess.py:54-94 | a bad quantile fails first and leaves `Y` alone; otherwise `Y` is relabelled in place, a bad slice list gives `IndexError`, and on success the three splits take their slices from the same lists in `X` and `Y`, with the brightness mask applied |
| Preprocess.IsbiSplitLabels | src/preprocess.py:77-94 | for ground truth in `{0, 255}` every output label is -1, 0 or 1 |
| Threshold.ThresholdLabels | Data/Kasthuri11/threshold_labels.py:46-48 | the output has the shape of the score volume, and each label is 0 if the score is `<= lo`, else 1 if it is `>= hi`, else unused (-1) |
| Threshold.ClassesPartition | Data/Kasthuri11/threshold_labels.py:13-17 | with `lo < hi`: label 1 iff the score is `>= hi`, 0 iff `<= lo`, unused iff strictly between; no other label occurs |
| Threshold.ManualClassesPartition | Data/Kasthuri11/threshold_labels.py:29 | with the manual thresholds `.1` and `.6` the three classes are disjoint and cover every score |
| Threshold.LowWinsOnOverlap | Data/Kasthuri11/threshold_labels.py:47-48 | when a score is both `>= hi` and `<= lo`, the later assignment wins and the label is 0 |
| Train.SnapshotsBetweenCount | src/emcnn.py:417-419 | from the start, the snapshots taken in the first `n` iterations are as many as the snapshot count says: `n / s` for an interval `s > 0`, none for 0 |
| Train.TrainRound | src/emcnn.py:393-411 | a failing fill raises its `IndexError` or `ValueError` before anything changes. Otherwise `Xi` and `yi` hold the windows and labels of the sampled voxels, the minibatch handed on is `Xi` itself or a fresh array whose every tile is the drawn symmetry of `Xi`'s tile, and the solver takes one step with `_step`'s effect. The counter advances by exactly 1 iff the fill and `_step` complete; the round then fails only with the error of `print_state`'s rate at the new count when progress shows. Every blob keeps its shape on success |
| Train.TrainRounds | src/emcnn.py:384-423 | the loop over the minibatches the generator yields: every finished round advances the counter by one and records a snapshot exactly when one is due; the loop stops after the last round or once training is complete; a failing round stops it, described by how that round ended |
| Train.TrainOneEpoch | src/emcnn.py:355-423 | an empty `Y` raises `np.max`'s `ValueError` before any round. Otherwise every completed round advances the solver by one iteration. Snapshots are recorded exactly at the due iterations. The epoch ends after all rounds or as soon as training is complete, and never continues past a completed iteration. An error stops the epoch at the failing round: the fill's `IndexError` or `ValueError`, or else the learning rate's error or the NaN `RuntimeError` of that step, or, after a completed step, the error of `print_state`'s rate; the counter has moved on iff that round's step completed |

## Left out

- Argument parsing (`argparse`, `eval` of slice lists) and all file, HDF5, MATLAB and Caffe model I/O.
- Caffe's forward and backward passes. Gradients, the `loss` output and the per-class outputs of `predict` are inputs.
- The `float32` conversions of `Xi`, `yi` and `Prob`, and the `yTensor` reshaping in `_step`. Values are reals.
- The random choice of a symmetry is an input. The arbitrary rotation by `scipy.ndimage.rotate` is floating-point resampling and is not modelled.
- The pixel generators, `mirror_edges`, `fix_class_labels` and `metrics` of `emlib` are not part of this model. Generator output is a sequence of voxel lists.
- The scaling of `X` by 1/255 and the shape assertions of `_load_data`.
- The epoch loop of `_train_network` (repeat `train_one_epoch`, then predict on the validation volume) is not modelled as a loop. Its per-epoch pieces are: `Train.TrainOneEpoch` and `Predict.ValidationEstimates`.
- The tile extraction in `predict` is the same window copy as `Tiles.FillMinibatch`. Only the scatter into `Prob` is modelled.
- The `'prob'` blob check of `predict` (a `RuntimeError` from the network object) is not modelled.
- Printing and timing: the output of `print_state` (only the error of its learning-rate call is modelled), `print_network`, progress chatter, `_cnnTime`, `_bornTime`.
- `_lastAcc` is not modelled, because it is only read by `print_state`.
- The NaN assertions on `Xi` and `yi` are not modelled, because the model's pixel values are reals.
- The brightness threshold comes from `mquantiles`; the model takes it as an input. The percentages the scripts print are not modelled.
- The quantile branch of `threshold_labels.py` is not modelled, because it is unreachable (`if True`).
- `src/Postproc/npy_to_mat.py` and `Data/Kasthuri11/extract_volume.py` are not part of this model: they only convert files.
- Solver.LearningRate: the `inv` policy's real power `x ** y` is the function parameter `pow`. Only the `step` policy's value is stated exactly.
- Solver.LearningRate: floating-point range is not modelled. Under `step` with `gamma == 0` and a negative exponent numpy returns an infinite rate with a warning and training goes on with infinite or NaN weights; the model stops that step with `NonFinite`. A power that overflows (numpy's infinity, or Python's `OverflowError` under `inv`) is not modelled.
- Solver.SGDSolverMemoryData.Step: uses the intended display gate `Solver.ShowState`. As written, a verbose solver with `display == 0` raises `ZeroDivisionError` after every completed step; `Solver.SGDSolverMemoryData.StepAsWritten` models that.
- Train.TrainRound: takes its solver step with `Solver.SGDSolverMemoryData.Step`, the intended display gate, so it never raises the display gate's `ZeroDivisionError`; the error of `print_state`'s rate is modelled.
- Train.TrainOneEpoch: uses the intended gates `Solver.ShowState` and `Solver.TimeForSnapshot`. As written, with `snapshot == 0` (Caffe's default), or verbose with `display == 0`, the source raises `ZeroDivisionError` right after the first completed step; the epoch of the model carries on.
- Predict.PredictVolume: with a minibatch of one, `np.squeeze(out['prob'])` drops the batch axis as well and `ProbBatch[:,jj]` raises `IndexError`; the model's per-batch outputs always have one row per voxel and one column per class.
- Predict.AfterScatterHit: numpy does not specify which value wins when one fancy-index assignment names a voxel twice; the model assumes the last. `Predict.SampledHoldsItsValue` rests on the same assumption. `Predict.MinusOneIffNeverSampled` does not.
- Symmetry.XformMinibatch: requires square tiles. On a non-square tile the transposing ops make `X2[...] = op(X)` raise `ValueError`, and the others succeed; neither is modelled.
- Solver.SGDSolverMemoryData.Step: a loss is a real or absent. A NaN loss (truthy in Python) and a loss the `try` block rejects are not modelled.
- Labels.OmitLabels: for an empty `Y` the model returns no percentage. The source divides by zero there: it raises when nothing is omitted and yields NaN through numpy otherwise.
- Labels.OmitLabels: `Y` is read as a flat sequence of integer labels. The source reads it as a float volume, and only membership and counts matter.

## Findings

| source | as written | input that shows it | evidently intended | confidence | as-written member | corrected member |
|---|---|---|---|---|---|---|
| src/emcnn.py:188-189 | the last two axes are sliced from `bs` to `-bs` | a tile height of 1, so `bs == 0`: the slice `0:-0` is `0:0` and every slice becomes empty | with no border, pruning is the identity | not executed; high | Border.PruneBorder3dAsWritten (shown by Border.ZeroBorderEmptiesVolume) | Border.PruneBorder3d (Border.PruneBorder3dAt, Border.ZeroBorderEmptiesVolume) |
| src/pycaffe2.py:75-76 | the snapshot test is `_iter % snapshot == 0` | `snapshot == 0`, the default of Caffe's solver parameters, raises `ZeroDivisionError` after the first step | an interval of 0 means "never snapshot", as in Caffe | not executed; medium | Solver.IsTimeForSnapshotAsWritten (shown by Solver.SnapshotZeroRaises) | Solver.TimeForSnapshot (Solver.SnapshotCountIsQuotient; used by Train.TrainOneEpoch) |
| src/pycaffe2.py:65 | the display gate is `verbose and iter % display == 1` | `display == 0` (Caffe's default) raises `ZeroDivisionError`; `display == 1` never displays, since every remainder is 0 | display after iterations 1, 1 + display, 1 + 2*display, ...; never for 0 | not executed; medium | Solver.ShowStateAsWritten (shown by Solver.ShowStateDiscrepancy; used by Solver.SGDSolverMemoryData.StepAsWritten) | Solver.ShowState (Solver.ShowStateAgreesAboveOne; used by Solver.SGDSolverMemoryData.Step) |
