# LUMIN fold yielders, ensembles and data callbacks in Dafny

This project models three parts of LUMIN, a deep-learning library for
high-energy physics:

- **Fold yielders** (`FoldYielder` and `HEPAugFoldYielder`) hand out the
  folds of a fold file. The HEP yielder also produces rotated and
  reflected copies of a fold's inputs.
  - At train time the rotation angle and the reflection coins are random.
  - At test time an augmentation index `0 .. aug_mult-1` picks one fixed
    view. The index is split into a rotation index and a binary
    reflection code.
- **Ensembles** choose trained models, and the snapshots of their training
  cycles, by a metric.
  - The chosen members are weighted, and the weights are normalised.
  - A prediction is the weighted sum of the members' outputs, made for an
    array or for every fold of a fold file.
  - With test-time augmentation, a fold's prediction is the mean over
    every augmented view.
- **Data callbacks**:
  - binary label smoothing of targets, at train time and at evaluation time;
  - dynamic reweighting, which boosts a fold's event weights by
    per-event coefficients and then restores the fold's total weight.

## Files

- `basics.dfy` (module `Basics`): `Option`, `Result`, the errors the
  code raises (as values), and sums of reals.
- `floats.dfy` (module `Floats`): doubles as `Fin(r)`, `NaN` or a signed
  `Inf`, plus `np.nan_to_num`. Finite arithmetic is exact.
- `aug_index.dfy` (module `AugIndex`) covers the HEP configuration:
  - the rot_mult correction;
  - the reflection axes;
  - aug_mult;
  - the vector names;
  - the binary reflection code;
  - the test-time index split and its inverse.
- `frames.dfy` (module `Frames`) models a DataFrame as the class `Frame`, a
  map from column names to columns. It covers:
  - the reflect step and its algebra;
  - the rotation of one vector and of all vectors.
- `fold_yielder.dfy` (module `FoldYielding`) holds the fold file, the
  yielder class `FoldYielder` (which covers both classes), and the
  train-time and test-time views.
- `ensemble.dfy` (module `Ensembles`) covers:
  - ranking and selection;
  - cycle snapshots;
  - the weights;
  - `predict_array` and `fold_predict`;
  - the class `Ensemble`.
- `data_callbacks.dfy` (module `DataCallbacks`) holds `BinaryLabelSmooth`
  and `DynamicReweight`. Targets and weights are arrays changed in place.

**Style.** Each stateful operation is a method, specified by a function
on the inputs or on the old state. The properties are proved about those
functions as lemmas.

**Parameters.** These are passed in as parameters:
- the random numbers (`Draws`);
- `cos` and `sin` (`Trig`);
- the networks (`net`);
- the output pipe;
- the model-plus-reweight callable (`coefsOf`).

Angles are fractions of a full turn, so `2*pi*x` is the turn `x`.

## Model

| member | source | states |
|---|---|---|
| `Floats.NanToNumFinite` | lumin/nn/data/fold_yielder.py:52 | nan_to_num keeps finite values, sends NaN to 0 and the infinities to the largest finite doubles, and applying it again changes nothing |
| `Floats.NegInvolution` | lumin/nn/data/fold_yielder.py:125 | negating a value twice gives it back, NaN and infinities included |
| `Basics.SumScaled` | lumin/nn/inference/ensemble.py:89 | dividing every weight by a number divides their sum by it |
| `Basics.SliceEnd` | lumin/nn/inference/ensemble.py:103-105 | `[:n_models]` keeps the whole list when n_models is None, the first n for 0 <= n <= length, drops the last -n for a negative n, and never runs past the end |
| `AugIndex.CorrectedRotMult` | lumin/nn/data/fold_yielder.py:72-74 | an odd positive rot_mult with fixed rotations is raised by one, so it becomes even; every other rot_mult is kept |
| `AugIndex.ReflectAxes` | lumin/nn/data/fold_yielder.py:78-110 | `_px` is an axis exactly when there are no rotations and reflect_x is set; `_py` exactly when reflect_y is set; `_pz` exactly when reflect_z is set; the axes come in x, y, z order, at most three |
| `AugIndex.AugMult` | lumin/nn/data/fold_yielder.py:79-110 | without axes aug_mult is rot_mult (or 1); it is at least 1 for a non-negative rot_mult and negative for a negative one, so then every test index is rejected |
| `AugIndex.VectorsMembers` | lumin/nn/data/fold_yielder.py:80 | the vectors are exactly the features containing `_px`, each with its last three characters dropped |
| `AugIndex.VectorsAppend` | lumin/nn/data/fold_yielder.py:80 | the vector list follows the feature order: the vectors of two feature lists concatenated are the concatenation of their vectors |
| `AugIndex.Vectors` | lumin/nn/data/fold_yielder.py:80 | there are never more vectors than features |
| `AugIndex.BinDigitsValue` | lumin/nn/data/fold_yielder.py:148-150 | the binary digits of a number read back as that number |
| `AugIndex.FormatBinRoundTrip` | lumin/nn/data/fold_yielder.py:148-150 | the zero-padded binary format of a number below 2^width has exactly width digits and reads back as the number |
| `AugIndex.RefIndex` | lumin/nn/data/fold_yielder.py:145-150 | the reflection code is a binary string at least n_axes long when there are one to three axes; otherwise it is None |
| `AugIndex.FlagsOfBits` | lumin/nn/data/fold_yielder.py:167 | the flags `int(ref_index[i])` are 0 or 1, and their binary value is that of the code |
| `AugIndex.FlagsValueBound` | lumin/nn/data/fold_yielder.py:167 | n flags have a binary value below 2^n |
| `AugIndex.FlagsValueInjective` | lumin/nn/data/fold_yielder.py:167 | two flag vectors of one length with the same binary value are equal |
| `AugIndex.Split` | lumin/nn/data/fold_yielder.py:158-179 | a view has one flag per axis and a rotation index exactly when rot_mult is positive; with axes, that index is below rot_mult |
| `AugIndex.Encode` | lumin/nn/data/fold_yielder.py:145-160 | a valid view's index divided by rot_mult (or 1) is the binary value of its flags, and the remainder is its rotation index: encoding undoes the split that `aug_index % rot_mult` and `int(aug_index/div)` make |
| `AugIndex.SplitFlags` | lumin/nn/data/fold_yielder.py:158-174 | for an index below aug_mult, the reflection flags of the view are n_axes bits whose value is the index divided by rot_mult (or by 1) |
| `AugIndex.SplitEncode` | lumin/nn/data/fold_yielder.py:152-179 | every index below aug_mult splits into a valid view (a rotation index below rot_mult, n_axes flags), and that view encodes back to the index |
| `AugIndex.EncodeSplit` | lumin/nn/data/fold_yielder.py:152-179 | every valid view encodes to an index below aug_mult, and that index splits back into the view: the views are exactly the indices |
| `AugIndex.SplitInjective` | lumin/nn/data/fold_yielder.py:152-179 | two indices below aug_mult with the same view are equal: no test view is produced twice |
| `AugIndex.FixedTurnsDistinct` | lumin/nn/data/fold_yielder.py:163 | the fixed linspace angles for the rotation indices below rot_mult lie in [0, 1) turn and differ pairwise |
| `Frames.Frame.constructor` | lumin/nn/data/fold_yielder.py:132 | a frame holds columns of one common length |
| `Frames.ReflectStep` | lumin/nn/data/fold_yielder.py:123-127 | reflecting one column keeps every column and the row count |
| `Frames.ApplySteps` | lumin/nn/data/fold_yielder.py:121-127 | a sequence of reflect steps keeps every column and the row count |
| `Frames.ApplyAppend` | lumin/nn/data/fold_yielder.py:121-127 | running two lists of reflect steps one after the other is running their concatenation |
| `Frames.ReflectedColumns` | lumin/nn/data/fold_yielder.py:120-127 | after the reflect loop, each targeted column whose flag column exists is negated exactly where the flag is 1; every other column is unchanged (a missing flag column is skipped, as the KeyError is caught) |
| `Frames.ReflectedTarget` | lumin/nn/data/fold_yielder.py:120-127 | a targeted column after the loop is its original negated where its flag is 1 |
| `Frames.ReflectedKeeps` | lumin/nn/data/fold_yielder.py:120-127 | a column that no step with an existing flag targets is unchanged by the loop |
| `Frames.StepInvolution` | lumin/nn/data/fold_yielder.py:124-125 | reflecting a column twice on the same flag column restores the frame |
| `Frames.StepsCommute` | lumin/nn/data/fold_yielder.py:121-127 | reflect steps on different columns, neither reading the other's target, commute |
| `Frames.StepCommutesPast` | lumin/nn/data/fold_yielder.py:121-127 | a step independent of a whole list of steps commutes with the list |
| `Frames.ReflectTwice` | lumin/nn/data/fold_yielder.py:120-127 | running the reflect loop twice with the same flags restores the frame |
| `Frames.ReflectStepsDisjoint` | lumin/nn/data/fold_yielder.py:121-122 | with distinct vectors and axes, the steps of the nested loop target distinct columns, and no target is another step's flag column |
| `Frames.RotateVector` | lumin/nn/data/fold_yielder.py:116-118 | rotating one vector succeeds exactly when its px and py columns and aug_angle exist (otherwise a KeyError on a missing one); it adds only the `_pxtmp` column |
| `Frames.RotateReadsOldValues` | lumin/nn/data/fold_yielder.py:116-118 | the new px and py are the rotation by aug_angle of the old px and py (the py line still reads the old px); `_pxtmp` equals the new px; all other columns are unchanged |
| `Frames.RotateBack` | lumin/nn/data/fold_yielder.py:116-118 | for finite components and cos²+sin²=1, rotating by an angle and then by its opposite restores px and py |
| `Frames.RotateAll` | lumin/nn/data/fold_yielder.py:114-118 | the rotate loop keeps every column and the row count |
| `Frames.RotateAllColumns` | lumin/nn/data/fold_yielder.py:114-118 | after the rotate loop over distinct vectors, each vector's px and py are the rotation of its original px and py by aug_angle |
| `Frames.RotateAllUntouched` | lumin/nn/data/fold_yielder.py:114-118 | the rotate loop leaves every column that no vector writes unchanged |
| `FoldYielding.GetData` | lumin/nn/data/fold_yielder.py:37-54 | get_data succeeds exactly for a fold in the file whose inputs, targets and weights are non-empty: a missing fold raises KeyError, an empty column IndexError at `data[0]`; targets and weights are as stored; inputs keep their shape, with finite values kept and NaN set to 0 |
| `FoldYielding.ReflectAxesStable` | lumin/nn/data/fold_yielder.py:82-110 | the axes list can be rebuilt from which axes it contains |
| `FoldYielding.FrameOf` | lumin/nn/data/fold_yielder.py:132 | the frame built with columns=input_feats has exactly those columns, column f holding the matching entry of every row |
| `FoldYielding.WithFlags` | lumin/nn/data/fold_yielder.py:138-139 | setting the flag columns keeps every column and adds `aug<axis>` for every axis |
| `FoldYielding.TrainColumns` | lumin/nn/data/fold_yielder.py:134-140 | the train-time augmentation keeps every input column and the row count |
| `FoldYielding.RotatedBy` | lumin/nn/data/fold_yielder.py:162-165 | rotating by a given aug_angle column keeps every column and the row count |
| `FoldYielding.FlagAndReflect` | lumin/nn/data/fold_yielder.py:167-169 | setting the test flags and reflecting keeps every column and the row count |
| `FoldYielding.TestColumns` | lumin/nn/data/fold_yielder.py:158-179 | the test-time augmentation keeps every input column and the row count (what each branch does to the values: `RotateReflectView`, `ReflectOnlyView`, `RotationOnlyView`) |
| `FoldYielding.TrainFold` | lumin/nn/data/fold_yielder.py:129-143 | get_fold raises KeyError for a missing fold and IndexError for an empty column; a success is that fold, with its targets, weights and row count |
| `FoldYielding.TestFold` | lumin/nn/data/fold_yielder.py:152-182 | a plain yielder has no get_test_fold (AttributeError); an index at or past aug_mult raises ValueError before the fold is read; a success is that fold at a valid index, with its targets, weights and row count and one value per feature in each row |
| `FoldYielding.FoldYielder.Plain` | lumin/nn/data/fold_yielder.py:16-25 | a plain yielder over the given file: not augmented, n_folds is the number of folds |
| `FoldYielding.FoldYielder.HEPAug` | lumin/nn/data/fold_yielder.py:66-112 | for any feature list, the HEP yielder stores the corrected rot_mult, the axes, aug_mult and the vectors described above, and the flags as given |
| `FoldYielding.FoldYielder.CollectAxes` | lumin/nn/data/fold_yielder.py:78-110 | the branchy constructor code yields exactly the axes list, and aug_mult is rot_mult (or 1) times 2 per axis |
| `FoldYielding.FoldYielder.TakeAxis` | lumin/nn/data/fold_yielder.py:86-110 | taking an axis appends it and doubles aug_mult; not taking it changes nothing |
| `FoldYielding.FoldYielder.SetSource` | lumin/nn/data/fold_yielder.py:23-25 | the new source replaces the old, and n_folds follows it |
| `FoldYielding.FoldYielder.Rotate` | lumin/nn/data/fold_yielder.py:114-118 | the frame after rotate is the rotation of every vector in turn, or the first missing column is reported |
| `FoldYielding.FoldYielder.RotateVectorInPlace` | lumin/nn/data/fold_yielder.py:116-118 | one vector's three column assignments, with the frame unchanged when a column is missing |
| `FoldYielding.FoldYielder.Reflect` | lumin/nn/data/fold_yielder.py:120-127 | the frame after reflect is the nested loop of reflect steps over vectors and axes |
| `FoldYielding.FoldYielder.ReflectVector` | lumin/nn/data/fold_yielder.py:122-127 | the inner loop reflects one vector along every axis in order |
| `FoldYielding.FoldYielder.ReflectColumn` | lumin/nn/data/fold_yielder.py:123-127 | one masked negation, skipped when the flag column is missing |
| `FoldYielding.FoldYielder.SetFlags` | lumin/nn/data/fold_yielder.py:138-139 | each axis gets its `aug<axis>` flag column, all other columns are kept |
| `FoldYielding.FoldYielder.SetFlagsAndReflect` | lumin/nn/data/fold_yielder.py:167-169 | the frame gets the constant flags of the reflection code and is then reflected |
| `FoldYielding.FoldYielder.GetFold` | lumin/nn/data/fold_yielder.py:129-143 | get_fold returns the train-time view of the fold (random rotation, random flips, nan_to_num), or get_data's result when not augmented |
| `FoldYielding.FoldYielder.GetTestFold` | lumin/nn/data/fold_yielder.py:152-182 | get_test_fold returns the test-time view picked by the augmentation index, with the AttributeError of a plain yielder and the ValueError for an index at or past aug_mult |
| `FoldYielding.FoldYielder.AugmentTestFrame` | lumin/nn/data/fold_yielder.py:158-179 | the three branches (rotate and reflect, reflect only, rotate only) applied to the frame |
| `FoldYielding.FoldYielder.RotateAndReflectView` | lumin/nn/data/fold_yielder.py:158-169 | rotate by the view's angle (drawn or fixed), then set the flags of the reflection code and reflect |
| `FoldYielding.FoldYielder.RotateView` | lumin/nn/data/fold_yielder.py:176-179 | rotate by the index's fixed angle, or by a drawn angle for random rotations |
| `FoldYielding.TestFoldErrors` | lumin/nn/data/fold_yielder.py:152-182 | the failures in the order met: AttributeError for a plain yielder; ValueError for an index at or past aug_mult (every index when rot_mult is negative); KeyError for a missing fold; IndexError for an empty column; a shape error for inputs not matching the features; a repeated feature name |
| `FoldYielding.TrainFoldData` | lumin/nn/data/fold_yielder.py:129-143 | a plain yielder's get_fold is get_data; the HEP one reports a repeated feature name and gives one value per feature in every row |
| `FoldYielding.AxesShape` | lumin/nn/data/fold_yielder.py:78-110 | the axes are distinct, at most three, each a three-character suffix |
| `FoldYielding.WithFlagsColumns` | lumin/nn/data/fold_yielder.py:167 | flag column `aug<axis j>` holds flag j; other columns are unchanged |
| `FoldYielding.FlagAndReflectColumn` | lumin/nn/data/fold_yielder.py:167-169 | after setting the flags and reflecting, component `v<axis j>` is negated exactly when bit j of the code is 1 |
| `FoldYielding.ReflectOnlyColumn` | lumin/nn/data/fold_yielder.py:171-174 | without rotations, component `v<axis j>` of the test view is negated exactly when flag j of the index's split is 1 |
| `FoldYielding.ReflectOnlyView` | lumin/nn/data/fold_yielder.py:171-181 | in the returned inputs, that entry is the stored value, negated when the flag is 1, through nan_to_num |
| `FoldYielding.RotationOnlyColumn` | lumin/nn/data/fold_yielder.py:176-179 | with fixed rotations and no axes, px and py of view i are rotated by the fixed angle i/rot_mult turn |
| `FoldYielding.RotationOnlyView` | lumin/nn/data/fold_yielder.py:176-181 | in the returned inputs, px and py are the stored ones rotated by that fixed angle, through nan_to_num |
| `FoldYielding.TestFoldFromColumns` | lumin/nn/data/fold_yielder.py:154-181 | a returned view was read from the augmented frame: each value is nan_to_num of its feature's column there |
| `FoldYielding.RotateReflectBranch` | lumin/nn/data/fold_yielder.py:158-169 | with axes and a positive rot_mult, the view is the rotation by the view's angle followed by the flags of the reflection code and reflect |
| `FoldYielding.FixedRotationColumns` | lumin/nn/data/fold_yielder.py:163-165 | a fixed rotation by view i turns px and py by the angle i/rot_mult turn |
| `FoldYielding.FlagAndReflectKeeps` | lumin/nn/data/fold_yielder.py:167-169 | a component whose axis is not reflected (px when rotations are on) comes through the flags and reflect unchanged |
| `FoldYielding.RotateReflectColumn` | lumin/nn/data/fold_yielder.py:158-169 | with fixed rotations and axes, px of the view is the rotated px; py is the rotated py, negated exactly when the `_py` flag of the index's split is 1 |
| `FoldYielding.RotateReflectView` | lumin/nn/data/fold_yielder.py:158-181 | in the returned inputs of the default configuration, px is nan_to_num of the stored (px, py) rotated by `(aug_index % rot_mult)/rot_mult` turn, and py is nan_to_num of the rotated py, negated exactly when the `_py` flag of the split is 1 |
| `FoldYielding.FoldsReadOnlyData` | lumin/nn/data/fold_yielder.py:129-182 | get_fold and get_test_fold read only the fold's inputs, targets and weights: stored predictions do not change what they return |
| `Ensembles.GetWeight` | lumin/nn/inference/ensemble.py:41-45 | reciprocal weighting gives 1/value (so weight × value = 1), uniform gives 1, anything else raises ValueError; the AMS inversion never applies |
| `Ensembles.Entries` | lumin/nn/inference/ensemble.py:72 | one (model, result) entry per training result |
| `Ensembles.Insert` | lumin/nn/inference/ensemble.py:72 | inserting an entry adds exactly that entry to the multiset |
| `Ensembles.InsertRanked` | lumin/nn/inference/ensemble.py:72 | inserting into a sorted list keeps it sorted |
| `Ensembles.Rank` | lumin/nn/inference/ensemble.py:72 | the sort is a permutation of the entries, ordered by result, ties by model index |
| `Ensembles.RankUnique` | lumin/nn/inference/ensemble.py:72 | two sorted permutations of the same entries are equal: the ranking is determined |
| `Ensembles.Overrides` | lumin/nn/inference/ensemble.py:58-65 | with both cycle_losses and n_cycles given, the metric becomes "loss" and the weighting "uniform"; otherwise both are kept |
| `Ensembles.Power` | lumin/nn/inference/ensemble.py:85 | a cycle weight `(n+1)**weighting_pwr` is positive, for negative powers too |
| `Ensembles.SelectCount` | lumin/nn/inference/ensemble.py:74 | `min(size, len(results))` never exceeds the number of results |
| `Ensembles.Normalised` | lumin/nn/inference/ensemble.py:88-89 | normalising keeps one weight per member |
| `Ensembles.NormalisedSum` | lumin/nn/inference/ensemble.py:88-89 | weights with a non-zero sum sum to 1 after normalising |
| `Ensembles.CycleMembers` | lumin/nn/inference/ensemble.py:80-86 | no snapshots without n_cycles; a missing or too short cycle_losses raises; otherwise one weight per snapshot |
| `Ensembles.Contribution` | lumin/nn/inference/ensemble.py:75-86 | unless only cycles are loaded, an entry contributes its trained model first, weighted by the weighting of its result; with load_cycles_only it contributes exactly its cycle snapshots; one weight per member |
| `Ensembles.Collect` | lumin/nn/inference/ensemble.py:74-86 | the selection loop appends one weight per member |
| `Ensembles.Selection` | lumin/nn/inference/ensemble.py:58-86 | a result without the (overridden) metric raises KeyError; a selection has one weight per member |
| `Ensembles.CollectExtends` | lumin/nn/inference/ensemble.py:74-86 | a failure in the selection loop ends it: later entries change nothing |
| `Ensembles.TopLevelMembers` | lumin/nn/inference/ensemble.py:74-78 | without cycles, member i is the trained model ranked i and its weight is the weighting of its result |
| `Ensembles.CyclesOnly` | lumin/nn/inference/ensemble.py:75-84 | with load_cycles_only and cycles, every member is a cycle snapshot |
| `Ensembles.CycleWalkShape` | lumin/nn/inference/ensemble.py:80-86 | the cycle walk yields at most n_cycles snapshots of the model, starting at the end cycle and counting down by one to at least 1, the k-th weighted (k+1)^weighting_pwr |
| `Ensembles.RankedFrom` | lumin/nn/inference/ensemble.py:72 | every ranked entry is the result of the model it names |
| `Ensembles.TopOfRanking` | lumin/nn/inference/ensemble.py:72-77 | the members taken from the top of the ranking are distinct models, and none has a larger result than any model left out |
| `Ensembles.SelectionTopK` | lumin/nn/inference/ensemble.py:47-77 | without cycles, build_ensemble picks `min(size, len(results))` distinct trained models in ranking order, and every one has a result no larger than any unpicked model's (the metric becomes "loss" under the snapshot override) |
| `Ensembles.WeightedSum` | lumin/nn/inference/ensemble.py:101-111 | the accumulated prediction has rows × n_out entries |
| `Ensembles.WeightedSumAt` | lumin/nn/inference/ensemble.py:101-111 | entry (a, b) of the accumulated prediction is the sum over members of weight i times output i at (a, b) |
| `Ensembles.FirstFailure` | lumin/nn/inference/ensemble.py:108-111 | the loop fails exactly when some member has no weight or an output of the wrong shape |
| `Ensembles.Prediction` | lumin/nn/inference/ensemble.py:100-112 | predict_array without n_out raises AttributeError; a prediction is rows × n_out |
| `Ensembles.Mean` | lumin/nn/inference/ensemble.py:130 | the mean of the views is rows × n_out |
| `Ensembles.Squeeze` | lumin/nn/inference/ensemble.py:133-134 | n_out > 1 saves the whole matrix; n_out = 1 saves its first column, one value per row; n_out = 0 is an IndexError |
| `Ensembles.AveragedPrediction` | lumin/nn/inference/ensemble.py:124-130 | no views is an error; the mean of the views is rows × n_out |
| `Ensembles.FoldPrediction` | lumin/nn/inference/ensemble.py:119-134 | without test-time augmentation a missing fold raises KeyError; a saved prediction has n_out at least 1, and is one value per row when n_out is 1 and a matrix otherwise |
| `Ensembles.Outputs` | lumin/nn/inference/ensemble.py:108-110 | one output per member |
| `Ensembles.CombineValue` | lumin/nn/inference/ensemble.py:101-112 | a successful accumulation is rows × n_out and entry (a, b) is the weighted sum of the outputs there |
| `Ensembles.PredictionValue` | lumin/nn/inference/ensemble.py:100-112 | predict_array returns rows × n_out entries; each is the weighted sum of the first n_models outputs, the weights renormalised to sum to 1 |
| `Ensembles.UnanimousPrediction` | lumin/nn/inference/ensemble.py:100-112 | when every used member gives the same output, predict_array returns that output |
| `Ensembles.MeanOfAgreeingViews` | lumin/nn/inference/ensemble.py:130 | the mean of equal views is that view |
| `Ensembles.UniformSum` | lumin/nn/inference/ensemble.py:130 | the n equal weights of the mean sum to 1 |
| `Ensembles.TestViews` | lumin/nn/inference/ensemble.py:126-128 | one test view per augmentation index |
| `Ensembles.Predictions` | lumin/nn/inference/ensemble.py:127-129 | a successful loop yields one prediction per view |
| `Ensembles.FoldPredictionLocal` | lumin/nn/inference/ensemble.py:117-134 | a fold's saved prediction depends only on that fold's data, so predictions written to earlier folds do not change it |
| `Ensembles.Ensemble.constructor` | lumin/nn/inference/ensemble.py:22-26 | an ensemble starts without members, weights or n_out, and with the given output pipe |
| `Ensembles.Ensemble.AddOutputPipe` | lumin/nn/inference/ensemble.py:31-32 | only the output pipe changes |
| `Ensembles.Ensemble.Contribute` | lumin/nn/inference/ensemble.py:75-86 | one iteration of the selection loop: the trained model (unless only cycles are loaded), then the cycle walk |
| `Ensembles.Ensemble.CycleWalk` | lumin/nn/inference/ensemble.py:80-86 | the loop over cycles computes the cycle snapshots and their weights |
| `Ensembles.Ensemble.SelectMembers` | lumin/nn/inference/ensemble.py:74-86 | the selection loop appends exactly the members of the selection and returns their raw weights, or its first failure |
| `Ensembles.Ensemble.BuildEnsemble` | lumin/nn/inference/ensemble.py:47-92 | build_ensemble stores the selected members, weights normalised to sum 1, size, n_out and results; an empty selection fails at `models[0]` |
| `Ensembles.Ensemble.StoreSelection` | lumin/nn/inference/ensemble.py:88-92 | the weights are stored normalised and the size is the member count; no member fails at `models[0]`, a zero weight sum fails, otherwise n_out and the results are stored |
| `Ensembles.Ensemble.Accumulate` | lumin/nn/inference/ensemble.py:108-111 | the accumulation loop computes the weighted sum of the outputs, or its first failure |
| `Ensembles.Ensemble.PredictArray` | lumin/nn/inference/ensemble.py:100-112 | predict_array computes the prediction described by PredictionValue |
| `Ensembles.Ensemble.PredictView` | lumin/nn/inference/ensemble.py:128-129 | one test view's prediction |
| `Ensembles.Ensemble.PredictViews` | lumin/nn/inference/ensemble.py:125-129 | the loop over the augmentation indices predicts every test view in order |
| `Ensembles.Ensemble.AverageViews` | lumin/nn/inference/ensemble.py:124-130 | with test-time augmentation, the prediction is the mean over all aug_mult views |
| `Ensembles.Ensemble.PredictFold` | lumin/nn/inference/ensemble.py:119-134 | a fold's prediction: one view without test-time augmentation, the mean of the test views with it; the first column when n_out is 1 |
| `Ensembles.Ensemble.FoldPredict` | lumin/nn/inference/ensemble.py:114-135 | fold_predict saves each fold's prediction under pred_name in fold order; at a failure the earlier folds are saved, the later ones are untouched, and the error is that fold's |
| `DataCallbacks.CoefPair` | lumin/nn/callbacks/data_callbacks.py:17 | a single coefficient is used for both classes, a pair as given |
| `DataCallbacks.Replaced` | lumin/nn/callbacks/data_callbacks.py:22 | `t[t == from] = to` replaces exactly the entries equal to from, keeping the length |
| `DataCallbacks.Smoothed` | lumin/nn/callbacks/data_callbacks.py:22-23 | smoothing keeps the number of targets |
| `DataCallbacks.SmoothedValues` | lumin/nn/callbacks/data_callbacks.py:22-23 | a 0 target becomes c0 (and then 1-c1 if c0 is 1), a 1 target becomes 1-c1, and every other value is kept |
| `DataCallbacks.DefaultSmoothingIdentity` | lumin/nn/callbacks/data_callbacks.py:15-23 | the default coefficient 0 leaves the targets unchanged |
| `DataCallbacks.BinaryLabelSmooth.constructor` | lumin/nn/callbacks/data_callbacks.py:15-17 | the coefficients stored as a pair |
| `DataCallbacks.BinaryLabelSmooth.Assign` | lumin/nn/callbacks/data_callbacks.py:22 | the masked assignment replaces exactly the entries equal to the value |
| `DataCallbacks.BinaryLabelSmooth.OnEpochBegin` | lumin/nn/callbacks/data_callbacks.py:19-23 | the batch yielder's targets become a new array holding the smoothed targets |
| `DataCallbacks.BinaryLabelSmooth.OnEvalBegin` | lumin/nn/callbacks/data_callbacks.py:25-28 | the given targets are smoothed in place |
| `DataCallbacks.Boosted` | lumin/nn/callbacks/data_callbacks.py:41 | `w += scale*coefs*w` makes each weight w × (1 + scale × coef) |
| `DataCallbacks.Factor` | lumin/nn/callbacks/data_callbacks.py:40-42 | the factor times the boosted sum is the starting sum |
| `DataCallbacks.FactorIs` | lumin/nn/callbacks/data_callbacks.py:42 | the rescale factor is start_sum over the boosted sum |
| `DataCallbacks.Reweighted` | lumin/nn/callbacks/data_callbacks.py:40-42 | reweighting keeps one weight per event |
| `DataCallbacks.RescaledSum` | lumin/nn/callbacks/data_callbacks.py:42 | rescaling by start_sum over the sum makes the weights sum to start_sum |
| `DataCallbacks.ReweightKeepsSum` | lumin/nn/callbacks/data_callbacks.py:40-42 | reweighting keeps the fold's total weight |
| `DataCallbacks.ReweightProportional` | lumin/nn/callbacks/data_callbacks.py:41-42 | every new weight is one common factor times w × (1 + scale × coef): the ratios between events follow the coefficients alone |
| `DataCallbacks.FoldReweight` | lumin/nn/callbacks/data_callbacks.py:36-42 | a missing fold raises KeyError; new weights are one per event of the fold and sum to the fold's old total |
| `DataCallbacks.ReweightedSourceAsWritten` | lumin/nn/callbacks/data_callbacks.py:36-43 | as written, reweight_fold never yields a new fold file, and when the weights were computed the error is the missing `foldfile` attribute |
| `DataCallbacks.ReweightedSource` | lumin/nn/callbacks/data_callbacks.py:36-43 | a reweighted fold file has the same folds, and the fold asked for exists |
| `DataCallbacks.FoldReweightReadsData` | lumin/nn/callbacks/data_callbacks.py:36-42 | a fold's new weights depend only on that fold's inputs, targets and weights, so reweighting earlier folds does not change them |
| `DataCallbacks.ForgottenWriteBack` | lumin/nn/callbacks/data_callbacks.py:43 | as written, reweight_fold always fails, and exactly with the missing-attribute error when the intended write would succeed; the intended write keeps the fold's total weight and changes only that fold's weights |
| `DataCallbacks.DynamicReweight.constructor` | lumin/nn/callbacks/data_callbacks.py:32-34 | scale, callable and eval_all_folds stored |
| `DataCallbacks.DynamicReweight.SumOf` | lumin/nn/callbacks/data_callbacks.py:40 | the loop computes the sum of the weights |
| `DataCallbacks.DynamicReweight.Boost` | lumin/nn/callbacks/data_callbacks.py:41 | each weight in place becomes w + scale × coef × w |
| `DataCallbacks.DynamicReweight.Rescale` | lumin/nn/callbacks/data_callbacks.py:42 | each weight in place is multiplied by the factor |
| `DataCallbacks.DynamicReweight.ReweightInPlace` | lumin/nn/callbacks/data_callbacks.py:40-42 | the weights array becomes the reweighted weights, or a zero boosted sum is reported |
| `DataCallbacks.DynamicReweight.ReweightFoldAsWritten` | lumin/nn/callbacks/data_callbacks.py:36-43 | reweight_fold as written: it reports the first failure, and the missing `foldfile` attribute when there is no other |
| `DataCallbacks.DynamicReweight.ReweightFold` | lumin/nn/callbacks/data_callbacks.py:36-43 | reweight_fold writing to the source: fold `id`'s weights are replaced by the reweighted ones, and on failure the file is unchanged |
| `DataCallbacks.DynamicReweight.OnTrainEnd` | lumin/nn/callbacks/data_callbacks.py:45-49 | models the intended program, calling the corrected `ReweightFold` (as written, the first call raises AttributeError at line 43; see Findings): only val_id is reweighted, or every fold in order with eval_all_folds; at a failure the earlier folds keep their new weights, the later ones are untouched, and the error is that fold's |

## Left out

- File I/O (h5py), DataFrames beyond named columns, pandas indexing and
  dtypes: a fold file is a sequence of folds, and a frame is a map of
  columns.
- Floating point: finite arithmetic is exact real arithmetic. `np.cos`,
  `np.sin` and the random generators are parameters. NaN and the
  infinities are kept only where nan_to_num turns them into numbers.
- `np.nan_to_num` maps the infinities to the largest finite doubles, not
  to zero. The model follows numpy.
- The printed messages, warnings, progress bars and timing in all three
  files (including fold_predict's mean time per event).
- `get_fold_df`, `get_column` over several folds, and `get_df`. Only the
  single-fold `get_data` path that `get_fold` uses is modelled.
- `FoldYielding.GetData`: a file without a `fold_0` group makes get_column
  return None (fold_yielder.py:38), so get_data hands on None columns
  instead of raising KeyError. The model reports every missing fold as
  `MissingFold`.
- `FoldYielding.FoldYielder.GetTestFold` and `FoldYielding.TestFold`: the
  augmentation index is a natural number. Python also accepts a negative
  one, where `int(aug_index/div)` truncates and a negative binary code
  makes `int('-')` raise ValueError. Negative indices are not modelled.
- `FoldYielding.FoldYielder.HEPAug` accepts a feature list with a
  repeated name, as the source does. `FoldYielding.TrainFold` and
  `FoldYielding.TestFold` then report `DuplicateColumns` instead of
  following pandas through a frame with duplicate column labels.
- `FoldYielding.TestColumns`: its own contract states only the kept columns
  and rows. The values of each branch are stated by `RotateReflectView`
  (fixed rotations with reflections; px and py, not pz),
  `ReflectOnlyView` and `RotationOnlyView`. The branches with random
  rotations have no value lemma, as their angles are drawn parameters.
- `add_input_pipe` and `input_pipe`: predict_array never reads the input
  pipe. `load_trained_model`: a member is named by its model id, or its id
  and cycle, and `net` evaluates it.
- `Ensembles.Ensemble`: `predict` is the dispatch on the input type. Its
  two branches are `PredictArray` and `FoldPredict`.
- `save_fold_pred`: the float32 dataset and the RuntimeError on an existing
  dataset are not modelled. The prediction is stored as reals under its
  name.
- `Ensembles.Power`: weighting_pwr is an integer. A float power, which
  `**` also accepts, is not modelled.
- `Ensembles.Reciprocal`: a zero metric value gives the error `ZeroMetric`,
  where numpy would give an infinity.
- A zero weight sum is the error `ZeroWeightSum`, where numpy would give
  inf or nan. This applies to `Ensembles.Ensemble.BuildEnsemble`,
  `Ensembles.Prediction` and `DataCallbacks.Reweighted`.
- Numpy broadcasting is not modelled. A member's output must be exactly
  rows × n_out, or it is a shape error. There must be exactly one
  coefficient per event. This includes the `(n,1)*(n,)` broadcast in
  reweight_fold.
- `Ensembles.Ensemble.BuildEnsemble`: n_out, the out_features of the first
  member's last layer, is a parameter. The state after a failed build is
  left unspecified. The source would have set some attributes before
  raising.
- `Ensembles.AveragedPrediction`: a non-positive aug_mult leaves
  fold_predict's average with no views, and `len(fold)` then raises a
  NameError in the source. It is modelled as `NoAugmentedViews`.
- `DataCallbacks.DynamicReweight`: the model's `predict_array` and the user's
  `reweight` callable are one given function from a fold's data to
  coefficients. Device transfers and tensors are not modelled.
- `DataCallbacks.BinaryLabelSmooth.OnEpochBegin`: `astype(float)` is a
  copy. All values are reals already.
- The weights of an ensemble are not proved invariant under scaling of the
  metric.
- `is not 'loss'` and `is not 'uniform'` compare object identity. They are
  modelled as string inequality, and both override branches then set the
  same values as an equality test would.
- `'metric'.lower() == 'ams'` compares two literals and is always false.
  `Ensembles.GetWeight` keeps the test as written, so the AMS inversion
  never happens.

## Findings

| source | as written | input that shows it | evidently intended | confidence | as-written member | corrected member |
|---|---|---|---|---|---|---|
| lumin/nn/callbacks/data_callbacks.py:43 | the new weights are written through `fy.foldfile`, an attribute FoldYielder does not have, so reweight_fold raises AttributeError after computing them and no fold is ever reweighted | any fold id of a fold file whose weights have a non-zero boosted sum | write the weights back through the yielder's `source` | not executed | `DataCallbacks.DynamicReweight.ReweightFoldAsWritten` (with `DataCallbacks.ForgottenWriteBack`) | `DataCallbacks.DynamicReweight.ReweightFold` (specified by `DataCallbacks.ReweightedSource`), called by `DataCallbacks.DynamicReweight.OnTrainEnd` |
