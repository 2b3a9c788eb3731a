# RL Front End learners, modelled in Dafny

This project models the learning core of the RL Front End repository, a
toolkit for running reinforcement-learning predictors on live sensor signals
(EMG and pressure) during experiments. It models six parts:

- **Selective Kanerva coding, selection part** (`kanerva_select.dfy`, module `KanervaCoding`).
  - The prototype array `P` set up by the constructor.
  - The in-place Lomuto `partition`.
  - The recursive `QuickSelect` built on it.
  - Both methods work on an `array<int>`. Each is proved against a function on sequences that replays it.
  - What the code promises is proved about those functions. `partition` splits its range around the pivot and only permutes the range. Any value `QuickSelect` returns is the k-th smallest entry of the range.
- **SwiftTD** (`swift_td.dfy`, module `SwiftTDLearner`): a multi-head TD learner.
  - Step sizes are per feature and per head, adapted by Incremental Delta-Bar-Delta and capped in aggregate.
  - One head's update is a function on values (`HeadStep`). The class `SwiftTD` holds the learner's attributes and replays `reset`, `setLoadOld`, `saveInfo` and `update` on them. Its records are `live` (the arrays `update` reads and writes), `kept` (what `saveInfo` stored) and `status` (loop count, `loadOld`, and which attributes exist).
  - `saveInfo` keeps references, not copies. So the in-place writes of `update` (line 228 to the old betas array, line 240 to the old h array) also reach the snapshot; the model tracks this with two sharing flags.
- **True Online TD(lambda)** (`totd.dfy`, module `TrueOnlineTD`): the class `TOTD` with its constructor and `update`. `update` reassigns the weight, trace, value and feature fields, and is proved equal to a pure `Step`.
- **Expected return** (`expected_return.dfy`, module `ExpectedReturns`): the method dispatch of `expectedReturn` and the nested loops of its `'normal'` branch.
  - Each output is the truncated discounted sum over the horizon `int(5 / (1 - gamma))`, scaled by `1 - gamma`.
  - Lemmas give the value on a constant signal and show the sum is linear in the signal.
- **Hyper-parameter sweep** (`cross_validation.dfy`, module `HyperparameterSweep`): `CrossValidation`.
  - It checks the type of `parameters` and enumerates the Cartesian product of the value lists.
  - For each combination it makes the calls to the agent (`setParams`, `reset`, one `update` per data column) and keeps the first combination with the strictly greatest lag.
- **Data file handler** (`data_file_handler.dfy`, module `FileHandles`): the table from file names to open append-mode handles. It has guarded append and close, and a ghost log of what is done to the file system.

`outcomes.dfy` holds the `Option` and `Result` types used for `None` returns and for the exceptions Python raises. `real_seqs.dfy` holds the vector operations the learners share: `np.sum`, powers and `np.zeros`.

Three facts about the code that a reader might not expect:

- The expected-return horizon is `int(5 / (1 - gamma))`, which truncates toward zero.
- A constant signal v yields `v * (1 - gamma^T)` at every index (`ExpectedReturns.ConstantSignal`).
- SwiftTD's `reset` sets the betas to 0, so every step size becomes `exp(0)`. It also sets the loop count to 0, so the next non-restoring `update` re-initialises everything, betas included.

## Model

| member | source | states |
|---|---|---|
| KanervaCoding.SelectiveKanervaCoding.constructor | Algorithms/SelectiveKanervaCoding.py:5-12 | K, n and c are the arguments; `P` is a fresh K x n array whose entries are the uniform draw, each in [0, 1) |
| KanervaCoding.SelectiveKanervaCoding.Partition | Algorithms/SelectiveKanervaCoding.py:22-41 | the array and the returned index are those of the replaying function; the index lies in [left, right] and holds the old `array[right]`; entries before it are at most the pivot, entries after it up to right are above it; the array is a permutation of the old one that is unchanged outside [left, right] |
| KanervaCoding.PartitionCorrect | Algorithms/SelectiveKanervaCoding.py:30-41 | for every range inside the array, the replayed partition splits the range around the old last entry and only permutes the range |
| KanervaCoding.PartitionFromCorrect | Algorithms/SelectiveKanervaCoding.py:34-40 | from any loop iteration whose prefix is split (small entries before i, large ones in [i, j)), the rest of the loop and the final swap finish the split and only permute the range |
| KanervaCoding.CountPermutation | Algorithms/SelectiveKanervaCoding.py:34-40 | two sequences with the same multiset have the same number of entries below, and at most, any value; this is why the swaps keep ranks |
| KanervaCoding.KthSmallestUnique | Algorithms/SelectiveKanervaCoding.py:43-51 | at most one value is the k-th smallest of a sequence, so "the k-th smallest element" is well defined |
| KanervaCoding.PivotRank | Algorithms/SelectiveKanervaCoding.py:57-61 | after partitioning, the pivot at index p is the (p - left + 1)-th smallest entry of the original range |
| KanervaCoding.LowRank | Algorithms/SelectiveKanervaCoding.py:63-65 | a k-th smallest entry of the part left of the pivot is the k-th smallest of the whole original range |
| KanervaCoding.HighRank | Algorithms/SelectiveKanervaCoding.py:67-68 | the k'-th smallest entry of the part right of the pivot is the (k' + p - left + 1)-th smallest of the whole original range |
| KanervaCoding.SelectSound | Algorithms/SelectiveKanervaCoding.py:53-68 | with either guard, the selection only permutes [left, right], and any value it returns is the k-th smallest entry of the original range |
| KanervaCoding.SelectiveKanervaCoding.QuickSelect | Algorithms/SelectiveKanervaCoding.py:43-70 | the array and the result are those of the replaying function; only [left, right] is permuted; a returned value is the k-th smallest entry of the original range; `None` where the guard fails; every recursive call is on a strictly smaller range, so it terminates |
| KanervaCoding.SelectFixedComplete | Algorithms/SelectiveKanervaCoding.py:53-68 | with the guard `k > 0`, the selection returns a value exactly when 1 <= k <= right - left + 1 |
| KanervaCoding.SelectFixedCorrect | Algorithms/SelectiveKanervaCoding.py:53-68 | with the guard `k > 0`, a value is returned exactly when k is a rank of the range, and it is the k-th smallest entry |
| KanervaCoding.QuickSelectMissesRank | Algorithms/SelectiveKanervaCoding.py:53-68 | with the guard as written, [3, 1, 2] with k = 3 yields `None` although 3 is its third smallest entry |
| KanervaCoding.DemoSelectsFour | Algorithms/SelectiveKanervaCoding.py:88-92 | the file's demonstration: the first smallest entry of [10, 4, 5, 8, 6, 11, 26] is 4 |
| SwiftTDLearner.ContributionsNonNegative | Algorithms/SwiftTD.py:182-188 | since exp is positive, a head's aggregate unscaled step size `sum_j exp(betas[g, j]) * x[j]^2` is non-negative |
| SwiftTDLearner.ScaleFactor | Algorithms/SwiftTD.py:185-191 | for a positive cap and a non-negative aggregate, the scale factor is in (0, 1] and scales the aggregate to at most the cap; it is below 1 only when the aggregate exceeds the cap |
| SwiftTDLearner.ScaleFactorInUnitInterval | Algorithms/SwiftTD.py:182-191 | every head's scale factor lies in (0, 1] |
| SwiftTDLearner.ScaledContributionsCap | Algorithms/SwiftTD.py:182-200 | contributions multiplied by their head's scale factor sum to at most `maxStepSize` |
| SwiftTDLearner.StepSizeCap | Algorithms/SwiftTD.py:182-200 | with `stepSize = exp(betas) * scaleFactor`, a head's `sum_j stepSize[j] * x[j]^2` never exceeds `maxStepSize` |
| SwiftTDLearner.Clamp | Algorithms/SwiftTD.py:231 | the clamped beta is at most 0 and at most the beta it clamps |
| SwiftTDLearner.HeadStep | Algorithms/SwiftTD.py:159-241 | one head's later update: its new rows, the betas left in the old betas array and the counter contributions all have F entries |
| SwiftTDLearner.BetasNonPositive | Algorithms/SwiftTD.py:227-236 | when log(stepSizeDecay) <= 0 and the features are non-negative, every new beta is at most 0 |
| SwiftTDLearner.ScaledHeadSkipsMetaStep | Algorithms/SwiftTD.py:226-228 | a head whose scale factor is below 1 gets no meta step: the old betas array keeps the head's betas |
| SwiftTDLearner.MaskedReset | Algorithms/SwiftTD.py:233-241 | for a head with scale factor below 1 and an active feature j, beta j becomes its clamped value plus `x[j] * log(stepSizeDecay)`, and idbdTrace, h, hOld and be are 0 at j |
| SwiftTDLearner.UnmaskedEntry | Algorithms/SwiftTD.py:226-241 | outside the mask, beta j is the clamped meta-stepped beta, hOld j is the old h, and idbdTrace, h and be keep their updated values |
| SwiftTDLearner.Restored | Algorithms/SwiftTD.py:112-122 | after a restore the attributes are exactly the snapshot, the cumulant and the feature counter stay; restoring a snapshot of the same attributes changes nothing |
| SwiftTDLearner.Initial | Algorithms/SwiftTD.py:125-141 | the first non-restoring call makes every array H x F with one row per cumulant, betas equal to log(initAlpha), every other entry 0, and VOld the zero vector of length H |
| SwiftTDLearner.Learned | Algorithms/SwiftTD.py:159-251 | after a later call, row g of every array is head g's new row, VOld[g] is head g's new prediction, the feature counter gains each head's contributions, the feature vector and cumulant are the new ones, and the gradient norm is unchanged |
| SwiftTDLearner.AfterStep | Algorithms/SwiftTD.py:216-240 | a later call changes the snapshot only where it shares arrays: the shared betas array ends up with the meta-stepped betas, and the shared h array with the new hOld; nothing else in the snapshot changes |
| SwiftTDLearner.SwiftTD.Steps | Algorithms/SwiftTD.py:159-214 | head g is stepped from row g of the arrays, the feature vector and the cumulant `Z[g]` stored by the previous call, and `VOld[g]`, with the new feature vector |
| SwiftTDLearner.SwiftTD.constructor | Algorithms/SwiftTD.py:7-45 | the feature length is K times the number of resolutions; the constants are the arguments; the loop count is 0, `loadOld` is false and no learning attribute exists |
| SwiftTDLearner.SwiftTD.Reset | Algorithms/SwiftTD.py:51-70 | the feature vector, weights and VOld become zeros of length F; once the arrays exist, each becomes zeros of its own shape, the loop count 0, and the snapshot stops sharing them; before that nothing else changes |
| SwiftTDLearner.SwiftTD.SetLoadOld | Algorithms/SwiftTD.py:73-78 | only `loadOld` changes |
| SwiftTDLearner.SwiftTD.SaveInfo | Algorithms/SwiftTD.py:260-274 | the snapshot becomes the current attributes and shares the betas and h arrays; with only the vectors allocated it stores the feature vector and weights and then fails; with nothing allocated it fails and changes nothing |
| SwiftTDLearner.SwiftTD.Update | Algorithms/SwiftTD.py:98-257 | a first restoring call fails on a missing snapshot, or restores it and fails on the unassigned output with the loop count 1; a first fresh call allocates the arrays and returns zeros; a later call steps every head, sets VOld to the new predictions, returns `VNew * (1 - gammas)`, and writes into the shared snapshot arrays, stores the new feature vector and cumulant and adds 1 to the loop count; a later call without the feature counter, or with arrays not H x F, fails and changes nothing |
| TrueOnlineTD.Step | Algorithms/TOTD.py:55-69 | one update keeps every vector the weights' length and makes the new feature vector the stored one |
| TrueOnlineTD.InactiveComponent | Algorithms/TOTD.py:62-65 | a component whose previous feature and trace are both zero keeps its weight, and its trace stays zero |
| TrueOnlineTD.ZeroFeaturesFreeze | Algorithms/TOTD.py:62-65 | with an all-zero previous feature vector and trace, the weights are unchanged and the trace stays zero |
| TrueOnlineTD.TraceDecays | Algorithms/TOTD.py:62 | with an all-zero previous feature vector, each trace component is multiplied by gamma * lambda |
| TrueOnlineTD.RunWithoutFeatures | Algorithms/TOTD.py:45-69 | over any number of updates with zero feature vectors, starting from zero features and trace, the weights never move |
| TrueOnlineTD.RunDecaysTrace | Algorithms/TOTD.py:62-69 | after m updates with zero features, each trace component is (gamma * lambda)^m times its start |
| TrueOnlineTD.ZeroRateFreezes | Algorithms/TOTD.py:65 | with learning rate 0 the weights do not move |
| TrueOnlineTD.TOTD.constructor | Algorithms/TOTD.py:16-30 | weights, eligibility and VOld are zero vectors of length numStates, and x is zeros of length numStates * K |
| TrueOnlineTD.TOTD.Update | Algorithms/TOTD.py:45-69 | the reward is stored; when every vector has length numStates, the state becomes `Step` of the old state (V and VPrime elementwise, the Dutch trace, the weight update with the new trace), then VOld = VPrime and x = xPrime; otherwise the state is unchanged |
| ExpectedReturns.Truncate | Algorithms/Functions/ExpectedReturn.py:29 | Python's `int()` on a float: the integer part, truncated toward zero |
| ExpectedReturns.HorizonAtLeastFive | Algorithms/Functions/ExpectedReturn.py:29 | for a discount in [0, 1) the horizon is at least five samples |
| ExpectedReturns.SumOfTerms | Algorithms/Functions/ExpectedReturn.py:43-51 | `np.sum(term)` of the filled term array is the discounted sum from index i |
| ExpectedReturns.Terms | Algorithms/Functions/ExpectedReturn.py:43-48 | the inner loop fills `term[k] = gamma^k * data[i + k]` for every k < timeStep, reading only indices below len(data) |
| ExpectedReturns.DiscountedReturns | Algorithms/Functions/ExpectedReturn.py:31-54 | there are len(data) - timeStep outputs, output i being `(1 - gamma) * sum_{k < timeStep} gamma^k * data[i + k]` |
| ExpectedReturns.ExpectedReturn | Algorithms/Functions/ExpectedReturn.py:3-59 | an unknown method name raises `TypeError`; gamma == 1 divides by zero; a negative array size raises; `'conv'` raises on a zero horizon or empty data, since `np.convolve` refuses an empty operand, and otherwise succeeds; `'normal'` returns the discounted returns over the horizon `int(5 / (1 - gamma))` |
| ExpectedReturns.ConstantSignal | Algorithms/Functions/ExpectedReturn.py:41-54 | a constant signal v gives `v * (1 - gamma^timeStep)` at every index |
| ExpectedReturns.ScaledSignal | Algorithms/Functions/ExpectedReturn.py:41-54 | scaling the signal by c scales every discounted sum by c |
| ExpectedReturns.SumOfSignals | Algorithms/Functions/ExpectedReturn.py:41-54 | the discounted sum of the sum of two signals is the sum of their discounted sums |
| HyperparameterSweep.ProductLength | Algorithms/Functions/RLCrossValidation.py:56-59 | the number of combinations is the product of the list lengths |
| HyperparameterSweep.ProductMember | Algorithms/Functions/RLCrossValidation.py:56-62 | a sequence is a visited combination exactly when it picks one value from each list, in key order |
| HyperparameterSweep.ProductArity | Algorithms/Functions/RLCrossValidation.py:56-64 | every combination has one value per key, so `dict(zip(keys, combination))` pairs them all |
| HyperparameterSweep.ReplaysLength | Algorithms/Functions/RLCrossValidation.py:62-87 | each combination's replay is 2 + iterations calls |
| HyperparameterSweep.ReplayBlock | Algorithms/Functions/RLCrossValidation.py:62-87 | combination m's calls are the m-th block: `setParams` with that combination, `reset`, then `update` on columns 0 .. iterations - 1 in order |
| HyperparameterSweep.FirstMaximumExtends | Algorithms/Functions/RLCrossValidation.py:132-135 | appending a lag keeps the first maximum unless the new lag is strictly greater, in which case the new lag is the first maximum |
| HyperparameterSweep.ReplayCalls | Algorithms/Functions/RLCrossValidation.py:64-87 | the calls of one replay: `setParams`, `reset`, then one `update` per column in order |
| HyperparameterSweep.SweepCombinations | Algorithms/Functions/RLCrossValidation.py:43-135 | lagList holds one lag per combination in order; with no combinations bestLag is -inf and bestParams `None`; otherwise bestLag is the maximum lag and bestParams the first combination reaching it; the calls are the constructor then the replays in order |
| HyperparameterSweep.CrossValidation | Algorithms/Functions/RLCrossValidation.py:15-142 | a non-dictionary `parameters` raises `TypeError`; a dictionary with at least one combination and data with no columns raises the `ValueError` of concatenating no predictions; every other dictionary succeeds with the sweep's outcome over the Cartesian product of its value lists, and the calls made in order |
| FileHandles.DataFileHandler.constructor | RLDependencies/DataFileHandler.py:12-13 | the handle table is empty and nothing is open |
| FileHandles.DataFileHandler.OpenFile | RLDependencies/DataFileHandler.py:16-17 | the name maps to a fresh handle and the other entries stay; a handle the name had before stays open |
| FileHandles.DataFileHandler.AppendData | RLDependencies/DataFileHandler.py:20-25 | a name not in the table raises `ValueError` and changes nothing; an open name gets exactly one write, to its own handle |
| FileHandles.DataFileHandler.CloseFile | RLDependencies/DataFileHandler.py:28-33 | an open name has its handle closed and exactly its entry removed; a name not open raises `ValueError` and changes nothing |
| FileHandles.DataFileHandler.CloseAllFiles | RLDependencies/DataFileHandler.py:36-39 | every handle in the table is closed exactly once, the table becomes empty, and handles dropped by a re-open stay open |

## Left out

- Floating point: every quantity is a Dafny `real`, so rounding, overflow, `inf` and `nan` are not modelled, and nothing is claimed about convergence or accuracy.
- `np.exp` and `np.log` are parameters of the SwiftTD learner. The model assumes only that exp is positive; `SwiftTDLearner.BetasNonPositive` also requires `log(stepSizeDecay) <= 0`.
- The feature vector comes from the coder's `computeSKC`, which is not part of this model. SwiftTD and TOTD take the new feature vector as an input.
- The unfinished `SKC` method and the setter `newState` of the Kanerva coder (Algorithms/SelectiveKanervaCoding.py:19-20, 72-85) are not modelled, and neither is the `print(array)` inside `partition`.
- The SwiftTD and TOTD constructors call the coder with `studyID` and `numInputs`, which its constructor does not accept. The model takes the coder's prototype count and resolution list directly.
- SwiftTDLearner.SwiftTD.constructor requires `epsilon >= 0` and `maxStepSize > 0`, which the source does not check. With a negative epsilon the meta step's `exp(beta) + epsilon` (line 228) can be 0. With a cap of 0 or less the scale factor `maxStepSize / sum` (line 191) can divide by a zero sum, and the step-size cap is no longer meaningful. numpy would give `inf` or `nan` there, and floating point is not modelled.
- KanervaCoding.SelectiveKanervaCoding.constructor and the SwiftTD and TOTD constructors drop the source's default arguments. The coder's default `cList = 0` is an integer where a list of resolutions is expected, which the model's `seq<nat>` cannot represent; the `studyID` and `numInputs` defaults belong to the coder calls that are not modelled.
- SwiftTD's `setParams` (Algorithms/SwiftTD.py:81-95) sets arbitrary attributes by name, and is not modelled.
- SwiftTDLearner.SwiftTD: the H x F arrays are modelled as values (`seq<seq<real>>`) held in three record fields, not as arrays updated by per-element loops. In-place effects are modelled only where they reach the snapshot that `saveInfo` keeps, through the two sharing flags. Other aliasing, such as a caller keeping a reference to an array, is not modelled.
- SwiftTDLearner.SwiftTD.Update requires one cumulant per discount and a feature vector of length F. The scalar-cumulant branches (Algorithms/SwiftTD.py:143-157, 174-176) and numpy broadcasting are not modelled. A later call whose arrays are not all H x F returns `ShapeMismatch` with the state unchanged, where numpy may instead broadcast, or fail part-way through.
- SwiftTDLearner.SwiftTD.Reset models the one-dimensional `np.zeros(featureLength)` weights as a single row of F zeros.
- TrueOnlineTD.TOTD.Update takes the discount as a parameter, because the source reads `self.gamma`, which is never set. It also leaves out the call to the coder's missing `setState`. Broadcasting of a length-1 operand is not modelled.
- ExpectedReturns.ExpectedReturn returns an uninterpreted `Convolved` for a `'conv'` call that succeeds, because the value `np.convolve` computes is not modelled; its errors (a negative or zero horizon, empty data) are modelled. A list of discounts and the `data.shape[0]` fallback for two-dimensional data are not modelled either.
- HyperparameterSweep.CrossValidation assumes an agent whose `setParams`, `update` and `expectedReturn` calls succeed: an agent without `setParams` (such as `TOTD`), an `update` returning no array, or a failing `'conv'` return raise in the source but succeed in the model. The `NoPredictions` error also carries no record of the calls made before it.
- HyperparameterSweep.CrossValidation models the lag of a replay as an arbitrary function of the combination, because scipy's cross-correlation and the agent's predictions are not modelled. The conversion of `data` and `Z` to arrays, the `predicted` list, the plotting and the prints are left out.
- FileHandles.DataFileHandler.OpenFile, FileHandles.DataFileHandler.AppendData, FileHandles.DataFileHandler.CloseFile and FileHandles.DataFileHandler.CloseAllFiles do not model the `OSError`s that `open`, `np.save` and `close` can raise, since the file system is not modelled: every open, write and close succeeds.
- FileHandles.DataFileHandler.CloseAllFiles returns the closing order only as a ghost value, because the dictionary's iteration order is not modelled. The bytes `np.save` writes are recorded as the data written.

## Findings

| source | as written | input that shows it | evidently intended | confidence | as-written member | corrected member |
|---|---|---|---|---|---|---|
| Algorithms/SelectiveKanervaCoding.py:53 | the guard `k > left` compares the rank k with the absolute index `left` | `QuickSelect([3, 1, 2], 0, 2, 3)`: the pivot 2 lands at index 1, the call recurses on range [2, 2] with k = 1, and `1 > 2` fails, so it returns `None` although 3 is the third smallest entry | `k > 0`, so that every rank 1..(right - left + 1) of the range is answered | not executed | KanervaCoding.QuickSelectMissesRank | KanervaCoding.SelectFixedCorrect |
