# Quark/gluon jet challenge: data preparation and training plumbing

This project is a Dafny model of the scripts that prepare the IML 2017
quark/gluon jet data and feed it to the networks.

- **Raw jets.** A raw jet carries six scalar variables (`jetPt`, `jetEta`,
  `jetPhi`, `jetMass`, `ntracks`, `ntowers`). It also carries variable-length
  arrays: four per track (`trackPt`, `trackEta`, `trackPhi`, `trackCharge`)
  and five per calorimeter tower (`towerE`, `towerEem`, `towerEhad`,
  `towerEta`, `towerPhi`).
- **Fixed slots.** The scripts turn these arrays into named slots `v_0`,
  `v_1`, .... They do this in two ways:
  - the ROOT preprocessor keeps the input order, truncates and zero-pads;
  - `flatten.py` orders the slots by decreasing `trackPt` or `towerE` and
    zero-pads to 52 tracks and 67 towers.
- **Jet shapes.** Two versions compute the shapes of each jet: one in
  Python, one as a ROOT macro.
- **Samples.** The scripts build labelled samples for the boost and the
  inference networks.
- **Batches and weights.** They cut the samples into training batches and
  weight them: the boost weight `(p+ε)/(1−p+ε)` and the class-balancing
  weights. They also set the log and checkpoint schedule.
- **Applying a model.** They apply a trained model in chunks of 100000 rows.

The project has one module per script:
- `Flatten`, `Preprocess`, `FlatHelper`, `CreateJetShapes`;
- `TfModel`, `TfModel2`, `CreateTrainingSamples`, `Apply`, `ApplyBoosting`.

Shared models:
- `Frames`: a pandas DataFrame as a class over a map of columns, and tables
  as values.
- `Names`: `str(i)`, the `{name}_{i}` column names and the variable lists.
- `PyStr`: Python's `rfind`, slicing, `replace`, `strip` and `split`.
- `JetShapes`: the per-jet track loop that both shape versions share.
- `Results`: `Option` and `Result`.

How the source becomes Dafny:
- **Imperative code** becomes methods with loop invariants, each proved
  equal to a specification function. This covers the per-event slot reset
  and copy, the row-by-row zero-padding, column assignment and deletion,
  the preallocated prediction array, and the accumulator loops.
- **Supporting lemmas** state what the scripts promise about those
  functions.
- **Foreign code** becomes parameters. The events of each ROOT file are a
  map from file name to events. The network is a function `run` from input
  rows to output rows. π and `sqrt` are fields of a `Geometry` value.

## Model

| member | source | states |
|---|---|---|
| PyStr.RFind | Examples/flat_helper.py:28 | `rfind` gives the last index of the character, or −1 exactly when it is absent |
| PyStr.SliceBound | Examples/flat_helper.py:28 | a Python slice bound: negative bounds count from the end, and every bound is clamped into the string |
| PyStr.ReplaceRemoves | Examples/flat_helper.py:29-30 | once a character is replaced by a string not containing it, the character no longer occurs |
| PyStr.ReplaceKeepsAbsent | Examples/flat_helper.py:29-30 | replacing does not introduce a character that occurs in neither the input nor the replacement |
| PyStr.ReplaceAppend | Examples/flat_helper.py:117-119 | replacing distributes over concatenation |
| PyStr.ReplaceAbsent | Examples/flat_helper.py:117-119 | replacing a character that does not occur changes nothing |
| PyStr.Strip | Examples/TMVA/preprocess_data.py:58 | `strip()` gives the substring after the leading blanks that neither starts nor ends with a blank, and only blanks follow it |
| PyStr.Split | Examples/TMVA/preprocess_data.py:58 | `split(' ')` gives at least one piece, and no piece contains the separator |
| PyStr.JoinSplit | Examples/TMVA/preprocess_data.py:58 | joining the pieces of a split with the separator gives back the string |
| PyStr.SplitCount | Examples/TMVA/preprocess_data.py:143-145 | the number of pieces is one more than the number of separators, which is the file count the script prints |
| Names.ParseDigitsOfDigits | flatten.py:42 | `str(i)` is decimal: parsing its digits gives back `i` |
| Names.DigitsInjective | flatten.py:42 | different slot numbers give different digit strings |
| Names.Suffixed | flatten.py:42 | `v + '_' + str(i)` starts with `v` followed by `_` |
| Names.SuffixedInjective | flatten.py:41-42 | for plain variable names, `v_i` determines both `v` and `i` |
| Names.SuffixedNotPlain | flatten.py:41-42 | a slot name never equals a plain variable name, so adding slots never overwrites a jet variable |
| Names.Slots | tf_model.py:13-14 | definition: the names `v_0 .. v_{w-1}`, in order; the appending loops are proved against it |
| Names.SlotListLength | tf_model.py:12-17 | `w` slots for each variable of a list give `len(list)·w` names |
| Names.SlotListIndex | tf_model.py:12-17 | slot `k` of the `m`-th variable sits at position `m·w + k` |
| Names.SlotListDistinct | Examples/TMVA/preprocess_data.py:87-99 | the slot names of distinct plain variables are pairwise distinct |
| Names.SlotNamesCard | flatten.py:41-42 | a group adds exactly `len(list)·w` distinct names |
| Names.InSlotNames | flatten.py:41-42 | `v_k` is a slot name of a group exactly when `v` is in the group and `k < w` |
| Names.ColumnNamesLength | tf_model.py:11-17 | the feature list has `6 + 4·t + 5·w` names |
| Names.ColumnNamesElements | tf_model.py:11-17 | its names are the jet variables together with the track and tower slot names |
| Names.ColumnNamesDistinct | tf_model.py:11-17 | the feature names are pairwise distinct |
| Names.TrackColumn | tf_model.py:12-14 | `trackX_i` is at position `6 + m·t + i` for `t` track slots |
| Names.TowerColumn | tf_model.py:15-17 | `towerX_i` follows all track slots, at `6 + 4·t + m·w + i` |
| Flatten.OutputFile | flatten.py:62 | the output file is the input name followed by `_flat.pickle` |
| Flatten.OutputFileInjective | flatten.py:62 | different input names are written to different files |
| Flatten.InsertKeepsDescending | flatten.py:15-20 | inserting an index at its position keeps the order non-increasing |
| Flatten.SortedPrefix | flatten.py:15-20 | the first `n` indices arranged so that the values they select are non-increasing, a permutation of `0..n-1` |
| Flatten.ArgSortDesc | flatten.py:15-20 | `myargsort`: a permutation of `0..len(x)-1` reading `x` in non-increasing order |
| Flatten.GatherSortedPrefix | flatten.py:15-40 | any array read in that order is a rearrangement of its first `n` values |
| Flatten.ArgSortDescSorts | flatten.py:15-20 | `x` read in the order `myargsort` returns is sorted descending and is a permutation of `x` |
| Flatten.PaddedRow | flatten.py:38-40 | a padded row: `v[o[k]]` in slot `k` for `k < len(o)`, 0 in the slots after |
| Flatten.Orders | flatten.py:28 | definition: `df.trackPt.apply(myargsort)`, one order per row; what the orders mean is stated by ArgSortDescSorts |
| Flatten.ZeroPadded | flatten.py:38-40 | the zero-initialised array filled row by row holds the padded rows; it fails exactly when some row does not fit the width |
| Flatten.FlatColumn | flatten.py:38-42 | the slot column `c_k` has one value per row |
| Flatten.WithSlotsFacts | flatten.py:41-42 | adding the slot columns of `c` adds exactly `c_0 .. c_{w-1}`, holding the padded slots; other columns are kept |
| Flatten.WithGroupKeys | flatten.py:36-42 | the track (or tower) loop adds exactly the group's slot names |
| Flatten.WithGroupKeeps | flatten.py:36-42 | columns other than the group's slots survive the loop unchanged |
| Flatten.WithGroupValues | flatten.py:36-42 | after the loop, every `c_k` of the group holds slot `k` of `c` in the key's order |
| Flatten.ColumnOf | flatten.py:42 | definition: `zero_padded_array[:, k]`, column `k` of the array |
| Flatten.PaddedColumns | flatten.py:38-42 | columns of the zero-padded array are the slot columns of the table |
| Flatten.AddSlotColumns | flatten.py:41-42 | the assignment loop sets `c_0 .. c_{w-1}` and nothing else |
| Flatten.FlattenGroup | flatten.py:36-42 | one group's loop succeeds exactly when every row fits, and then leaves the frame with the group's slot columns added |
| Flatten.DeleteColumns | flatten.py:56-59 | `del df[column]` for each listed column removes exactly those columns |
| Flatten.FlattenFrame | flatten.py:24-59 | per input table: succeeds exactly when no jet has more than 52 tracks or 67 towers (and the arrays fit), and then yields the flattened table |
| Flatten.FlattenedKeys | flatten.py:41-59 | the flattened table's columns are the input's minus the nine arrays plus the 4·52 + 5·67 slot names |
| Flatten.FlattenedTrackSlot | flatten.py:36-42 | `trackX_k` holds slot `k` of `trackX`, ordered by `trackPt` |
| Flatten.FlattenedTowerSlot | flatten.py:47-53 | `towerX_k` holds slot `k` of `towerX`, ordered by `towerE` |
| Flatten.FlattenedOther | flatten.py:56-59 | every other column is unchanged |
| Flatten.FlattenedIsFlattening | flatten.py:27-59 | the flattened table meets the whole description: columns, slot contents, other columns unchanged |
| Flatten.FlattenPickles | flatten.py:22-62 | the four files are processed in order; each written table is the flattened input under `name_flat.pickle`, and the script stops at the first table that does not fit |
| Flatten.FlattenNames | flatten.py:22-62 | the same loop over any list of names |
| Flatten.GroupSlots | flatten.py:28-40 | one order computed from the key is applied to every array of the group: slot `k` of every array belongs to the same constituent, and slots past the constituent count are 0 |
| Flatten.GroupSlotsRearrange | flatten.py:36-40 | each array's filled slots are a rearrangement of that array's values |
| Flatten.GroupKeySorted | flatten.py:28-40 | the key's slots are non-increasing |
| Flatten.GroupKeySlots | flatten.py:28-42 | the key's slots are its values in non-increasing order followed by zeros, and there is no truncation |
| Flatten.FlattenedSorted | flatten.py:27-53 | per jet, `trackPt_0..` and `towerE_0..` are their values sorted descending, zero-padded to 52 and 67 slots |
| Flatten.TrackTowerSlotsDisjoint | flatten.py:41-53 | track and tower slot names never collide |
| Flatten.SlotNameCount | flatten.py:41-59 | exactly 4·52 + 5·67 slot columns are added, none of them an array column |
| Frames.Append | create_training_samples.py:26 | appending two columns of one kind gives a column of that kind whose length is the sum |
| Frames.Constant | create_training_samples.py:21-24 | definition: `df[name] = b`, a boolean column with `b` on every row |
| Frames.Minus | tf_model2.py:36-37 | definition: the row-wise difference of two columns |
| Frames.Over | tf_model2.py:38 | definition: the row-wise quotient of two columns, the divisor nonzero on every row |
| Frames.Concat | create_training_samples.py:26-48 | `pandas.concat` of two tables of one schema: same schema, the rows added up, well-formedness kept |
| Frames.Frame.Read | create_training_samples.py:13-16 | `read_pickle`: a frame holding the table |
| Frames.Frame.Assign | flatten.py:42 | `df[name] = column` replaces or adds exactly that column |
| Frames.Frame.AssignConstant | create_training_samples.py:21-24 | `df[name] = b` adds (or replaces) a constant boolean column |
| Frames.Frame.Subtract | tf_model2.py:36-37 | `df[name] -= df[other]` changes only `name` |
| Frames.Frame.Divide | tf_model2.py:38 | `df[name] /= df[other]` changes only `name` |
| Frames.Frame.Delete | flatten.py:57 | `del df[name]` removes exactly that column |
| Preprocess.ProcessArguments | Examples/TMVA/preprocess_data.py:11-42 | error exactly when `--gluons` or `--quarks` is empty (checked gluons first, with the script's messages); otherwise the arguments with defaults 5, 5 and `preprocessed_data.root` |
| Preprocess.Chain.constructor | Examples/TMVA/preprocess_data.py:57 | an empty chain over the named tree |
| Preprocess.Chain.AddFile | Examples/TMVA/preprocess_data.py:59 | appends one file |
| Preprocess.FileList | Examples/TMVA/preprocess_data.py:58 | at least one file name, none containing a blank |
| Preprocess.CombineFiles | Examples/TMVA/preprocess_data.py:45-61 | a fresh chain holding one file per piece of `filenames.strip().split(' ')`, in order |
| Preprocess.FileListJoin | Examples/TMVA/preprocess_data.py:58 | the files joined by blanks give back the stripped argument, and their number is the blank count plus one |
| Preprocess.ChainEvents | Examples/TMVA/preprocess_data.py:102 | iterating a chain yields the files' events, each carrying every branch the script reads |
| Preprocess.ChainEventsAppend | Examples/TMVA/preprocess_data.py:57-59 | adding a file appends its events |
| Preprocess.Padded | Examples/TMVA/preprocess_data.py:111-115 | `n` slots: `values[i]` for `i < min(n, len(values))`, 0.0 after; longer arrays are truncated in input order |
| Preprocess.PaddedListLength | Examples/TMVA/preprocess_data.py:108-125 | a group contributes `len(list)·n` values per event |
| Preprocess.PaddedListIndex | Examples/TMVA/preprocess_data.py:108-125 | value `m·n + i` of a group is slot `i` of its `m`-th array |
| Preprocess.RowLength | Examples/TMVA/preprocess_data.py:82-99 | a row has one value per branch: 6 + 4·tracks + 5·towers (no slots for a negative count) |
| Preprocess.BranchNamesDistinct | Examples/TMVA/preprocess_data.py:82-99 | the branch names are pairwise distinct |
| Preprocess.JetValue | Examples/TMVA/preprocess_data.py:82-105 | the single variables come first and are copied unchanged |
| Preprocess.TrackBranch | Examples/TMVA/preprocess_data.py:87-92 | branch `6 + m·tracks + i` is `trackX_i` |
| Preprocess.TowerBranch | Examples/TMVA/preprocess_data.py:94-99 | tower branches follow the track branches |
| Preprocess.TrackValue | Examples/TMVA/preprocess_data.py:108-115 | the value in branch `trackX_i` is `trackX[i]` when it exists and 0.0 otherwise |
| Preprocess.TowerValue | Examples/TMVA/preprocess_data.py:118-125 | the same rule for tower branches |
| Preprocess.RowTowerAt | Examples/TMVA/preprocess_data.py:118-125 | the tower value at its position in the row |
| Preprocess.Lookup | Examples/TMVA/preprocess_data.py:127 | definition: `tree.Fill()` reads one value per branch, from that branch's buffer; FilledRow states what the row is |
| Preprocess.OutTree.constructor | Examples/TMVA/preprocess_data.py:78 | a new tree with no branches, buffers or rows |
| Preprocess.OutTree.Branch | Examples/TMVA/preprocess_data.py:84-85 | creates a branch whose one-slot buffer starts at −999 |
| Preprocess.OutTree.Set | Examples/TMVA/preprocess_data.py:105 | writes one buffer |
| Preprocess.OutTree.Fill | Examples/TMVA/preprocess_data.py:127 | appends the current buffer values as one row |
| Preprocess.AddSlotBranches | Examples/TMVA/preprocess_data.py:87-99 | creates `v_0 .. v_{n-1}` for each variable, in order |
| Preprocess.SlotNamesDiffer | Examples/TMVA/preprocess_data.py:112-115 | different slots of a variable have different buffers |
| Preprocess.ZeroSlots | Examples/TMVA/preprocess_data.py:111-112 | sets every slot buffer of the variable to 0.0 and touches no other buffer |
| Preprocess.CopySlots | Examples/TMVA/preprocess_data.py:114-115 | over zeroed slots, copies the first `min(n, len(values))` values, leaves the rest 0.0, and touches no other buffer |
| Preprocess.PadSlots | Examples/TMVA/preprocess_data.py:110-115 | afterwards the slot buffers hold the padded values, whatever they held before: nothing leaks from the previous event |
| Preprocess.PadGroup | Examples/TMVA/preprocess_data.py:107-125 | every slot of every variable of the group holds its padded value; other buffers are untouched |
| Preprocess.LookupSlotList | Examples/TMVA/preprocess_data.py:127 | reading a padded group's branches gives its padded values |
| Preprocess.FilledRow | Examples/TMVA/preprocess_data.py:102-127 | once the single, track and tower buffers are set, the row filled is the event's padded row |
| Preprocess.FillEvent | Examples/TMVA/preprocess_data.py:102-127 | handling one event appends exactly its padded row, independent of earlier events |
| Preprocess.FillEvents | Examples/TMVA/preprocess_data.py:102-127 | one row is filled per event, in chain order |
| Preprocess.Rows | Examples/TMVA/preprocess_data.py:102-127 | row `j` of the tree is the padded row of event `j` |
| Preprocess.AddBranches | Examples/TMVA/preprocess_data.py:83-85 | creates one branch per single variable, in order |
| Preprocess.OutFile.constructor | Examples/TMVA/preprocess_data.py:148 | `RECREATE`: a file without trees |
| Preprocess.OutFile.Write | Examples/TMVA/preprocess_data.py:130 | appends a tree to the file |
| Preprocess.AddTree | Examples/TMVA/preprocess_data.py:64-130 | writes one tree: the branches, then one padded row per chain event |
| Preprocess.PreprocessData | Examples/TMVA/preprocess_data.py:133-156 | the script: fails with the argument error, or writes the gluon tree then the quark tree, with `args.tracks` track slots and `args.towers` tower slots |
| JetShapes.UpdateStep | Examples/flat_helper.py:164-168 | the leading/subleading update keeps leading and subleading as the two largest values seen, ties counted |
| JetShapes.TopIsTopTwo | Examples/flat_helper.py:149-168 | after the loop, leading and subleading are the two largest of −999, −999 and the accepted pTs, with subleading ≤ leading; so an accepted pT below −999 never becomes leading |
| JetShapes.TopTwoUnique | Examples/flat_helper.py:164-168 | the pair is determined by the values alone |
| JetShapes.AccumulateTracks | Examples/flat_helper.py:149-179 | the track loop, with every accumulator reset, equals the accumulated value over all tracks, and subleading ≤ leading |
| JetShapes.FoldIsAccumulated | Examples/flat_helper.py:158-179 | the step-by-step loop equals the accumulators defined from the accepted tracks |
| JetShapes.AccumulatedStep | Examples/flat_helper.py:160-179 | a track with abs(eta) > 20 changes nothing, and an accepted track adds its pT, pT², radial term and a count |
| JetShapes.AcceptedPtsCount | Examples/flat_helper.py:160-179 | `numConst` is the number of tracks with abs(eta) ≤ 20 |
| JetShapes.AcceptedPtsMembers | Examples/flat_helper.py:160-168 | the momenta considered are exactly those of the accepted tracks |
| JetShapes.ShapeRow | Examples/flat_helper.py:193 | the shape row has the four columns mass, ntowers, radial, dispersion |
| JetShapes.ShapeFacts | Examples/flat_helper.py:182-190 | LeSub is leading − subleading ≥ 0 with two or more accepted tracks and 1 otherwise; dispersion is 0 without accepted tracks |
| FlatHelper.SanitizeClean | Examples/flat_helper.py:29-30 | after both replacements no `/` or `*` is left |
| FlatHelper.SanitizeSuffix | Examples/flat_helper.py:117-119 | the `_shapes.root` suffix survives the replacements |
| FlatHelper.PickleFileNameFacts | Examples/flat_helper.py:28-30 | the pickle name is the sanitized `rootFile[1:rfind('.')]` plus `.pkl`, and has no `/` or `*` |
| FlatHelper.PickleStem | Examples/flat_helper.py:28 | without a `.` the slice is `[1:-1]`; otherwise it is the text between the first character and the last `.` |
| FlatHelper.ShapesFileNameFacts | Examples/flat_helper.py:117-119 | the fast cache name is the sanitized directory followed by `_shapes.root` |
| FlatHelper.CalculateJetShapes | Examples/flat_helper.py:147-193 | returns the shape row `[jetMass, ntowers, radial, dispersion]` |
| FlatHelper.Skipped | Examples/flat_helper.py:80-82 | at most all entries are skipped |
| FlatHelper.Filled | Examples/flat_helper.py:61-89 | the rows filled: at most the number requested (all entries when negative), fewer exactly when the entries after the skipped ones run out |
| FlatHelper.GetJetShapes | Examples/flat_helper.py:19-104 | a `numSamples × 4` table whose first rows hold the shapes of the entries after the first `offset`, the rest zero; the warning is printed exactly when fewer rows are filled; a division by zero in the progress message is reported as failure |
| FlatHelper.FillShapes | Examples/flat_helper.py:67-91 | the event loop skips `offset` entries, fills rows 0, 1, … and stops at `numSamples` rows |
| FlatHelper.SetRow | Examples/flat_helper.py:85 | `data.iloc[ijet] = …` sets one row and keeps the filled and zero rows |
| FlatHelper.GetJetShapesFast | Examples/flat_helper.py:109-140 | the shapes of the first `EntryCount` entries under the `_shapes.root` name; the warning is printed exactly when fewer rows than requested come back |
| FlatHelper.FastMatchesSlow | Examples/flat_helper.py:109-140 | without an offset, the fast version yields as many rows as the slow one fills, and the slow one's table has the zero rows the fast one lacks |
| CreateJetShapes.EntryCount | Examples/CreateJetShapes.C:59-64 | all entries when `nentries < 0`, otherwise `min(nentries, total)` |
| CreateJetShapes.ShapeTree.constructor | Examples/CreateJetShapes.C:50 | a new tree without branches or rows |
| CreateJetShapes.ShapeTree.Branch | Examples/CreateJetShapes.C:52-55 | adds a branch |
| CreateJetShapes.ShapeTree.Fill | Examples/CreateJetShapes.C:125 | appends one row |
| CreateJetShapes.CreateJetShapes | Examples/CreateJetShapes.C:41-131 | `treeShapes` with branches mass, ntowers, radial, dispersion (the Python column order) and one row per processed entry holding its shapes; the "less entries" and "nentries == 0" messages are reported exactly when the macro prints them |
| CreateTrainingSamples.WithLabel | create_training_samples.py:21-24 | adds a constant label column and keeps every other column |
| CreateTrainingSamples.Without | create_training_samples.py:29-32 | removes the label column and keeps every other column |
| CreateTrainingSamples.LabelRemoved | create_training_samples.py:21-32 | adding then deleting `is_data` gives back the table |
| CreateTrainingSamples.LabelsKeepSchema | create_training_samples.py:21-39 | labelling or unlabelling two tables of one schema keeps them of one schema |
| CreateTrainingSamples.ConcatSchema | create_training_samples.py:26 | the concatenation keeps the schema, so it can be concatenated again |
| CreateTrainingSamples.LabelsKeepWellFormed | create_training_samples.py:21-32 | labels keep every column as long as the table |
| CreateTrainingSamples.BoostSampleSchema | create_training_samples.py:21-26 | the four labelled tables can be concatenated in turn |
| CreateTrainingSamples.InferenceInputs | create_training_samples.py:29-39 | after `is_data` is deleted, standard quarks and gluons share a schema, and so do the modified ones |
| CreateTrainingSamples.BoostSample | create_training_samples.py:21-26 | the boost sample has the rows of all four tables |
| CreateTrainingSamples.InferenceSample | create_training_samples.py:37-48 | the inference sample has the rows of signal then background |
| CreateTrainingSamples.AssignEach | create_training_samples.py:21-24 | each of the four frames gets its own label, and no frame affects another |
| CreateTrainingSamples.DeleteEach | create_training_samples.py:29-32 | `is_data` is removed from each of the four frames |
| CreateTrainingSamples.CreateTrainingSamples | create_training_samples.py:13-50 | the script writes the boost sample, the training sample qs ++ gs and the test sample qm ++ gm |
| CreateTrainingSamples.ConcatColumn | create_training_samples.py:26-48 | a column of a concatenation is the first table's column followed by the second's |
| CreateTrainingSamples.BoostSampleColumns | create_training_samples.py:26 | the boost sample has the inputs' columns plus `is_data`, each feature column being qs ++ qm ++ gs ++ gm |
| CreateTrainingSamples.BoostSampleLabels | create_training_samples.py:21-26 | `is_data` is true exactly on the qm and gm rows |
| CreateTrainingSamples.BoostLabelColumn | create_training_samples.py:21-26 | the `is_data` column is false, true, false, true blocks of the four table lengths |
| CreateTrainingSamples.InferenceSampleColumns | create_training_samples.py:29-39 | the inference sample has the inputs' columns without `is_data` and with `is_quark`; feature columns pass through |
| CreateTrainingSamples.InferenceSampleLabels | create_training_samples.py:37-48 | `is_quark` is true exactly on the signal rows, and `is_data` is gone |
| TfModel.AppendSlots | tf_model.py:12-17 | the nested append loop adds each variable's slots, in order |
| TfModel.AppendVariableSlots | tf_model.py:13-14 | the inner loop adds `v_0 .. v_{w-1}` |
| TfModel.BuildVariables | tf_model.py:11-17 | the loops build the feature list |
| TfModel.VariablesFacts | tf_model.py:11-17 | 549 distinct names, the six jet variables first |
| TfModel.VariablesIndex | tf_model.py:11-17 | `trackX_i` at `6 + m·52 + i`; `towerX_i` at `6 + 4·52 + m·67 + i` |
| TfModel.VariablesAreFlattenedColumns | tf_model.py:11-17 | every feature is a column of the flattened table, and the features are exactly its columns when the input has only jet variables besides the arrays |
| TfModel.FlattenedHasVariables | tf_model.py:11-17 | the same for the table flattening produces |
| TfModel.Range | tf_model.py:24 | `range(start, stop, step)`: `start + j·step`, all below `stop`, empty exactly when `stop ≤ start` |
| TfModel.RangeComplete | tf_model.py:24 | every `start + k·step` below `stop` is in the range |
| TfModel.BatchPositions | tf_model.py:24-26 | batch starts are `0, bs, 2bs, …`, and each batch's last row is below `len − 2` |
| TfModel.BatchCount | tf_model.py:24 | no batch when `len ≤ bs + 1`; otherwise between 2 and `bs + 1` final rows are never emitted |
| TfModel.Label | tf_model.py:26-29 | a label is 1.0 exactly for true |
| TfModel.MakeBatch | tf_model.py:25-27 | rows `pos..pos+bs−1` inclusive: `bs` rows of features and `bs` one-element labels |
| TfModel.Epoch | tf_model.py:22-30 | one pass of the generator: a batch at each start, all inside the table |
| TfModel.EpochEntries | tf_model.py:25-27 | entry `(r, c)` of batch `j` is feature `c` of row `j·bs + r`, and its label is that row's target |
| TfModel.BoostBatches | tf_model.py:86 | the boost generator with batch size 100: batches of 100 consecutive rows labelled by is_data, none for at most 101 rows, otherwise 2 to 101 final rows unread |
| TfModel.InferenceBatches | tf_model.py:104 | the inference generator with batch size 100: the same plan labelled by is_quark |
| TfModel.BoostWeight | tf_model.py:108-110 | `(p+ε)/(1−p+ε)` with ε = 1e-5: a positive weight that times `1−p+ε` gives `p+ε` |
| TfModel.BoostWeightOdds | tf_model.py:110 | the weight is 1 exactly at `p = 0.5` and above 1 exactly above it |
| TfModel.BoostWeightInverse | tf_model.py:110 | the weights of `p` and `1 − p` are reciprocal |
| TfModel.BoostWeightMonotone | tf_model.py:110 | the weight grows strictly with `p` |
| TfModel.BatchWeights | tf_model.py:108-113 | the boost weight per row with boost, 1 without |
| TfModel.TrainingLoop | tf_model.py:88-124 | the loop logs and saves exactly at the scheduled steps |
| TfModel.LoggedSteps | tf_model.py:94-120 | the loss is printed exactly at the steps divisible by 500, in increasing order |
| TfModel.SavedSteps | tf_model.py:97-124 | a checkpoint is saved exactly when `(s+1) % 10000 == 0` or `s+1 == n_iterations`, in increasing order |
| TfModel.NoSaveBetween | tf_model.py:97 | steps without a save add nothing |
| TfModel.SavedCount | tf_model.py:97-99 | `k` periods of 10000 steps give `k` saves, the last at step `10000·k − 1` |
| TfModel.LoggedCount | tf_model.py:94-95 | `⌈steps/500⌉` log lines |
| TfModel.TrainingSchedule | tf_model.py:52-99 | over 100000 steps: 200 log lines and 10 checkpoints, the last at step 99999 |
| TfModel2.Applied | tf_model2.py:35-43 | the column one step produces has one real per row |
| TfModel2.UpdateSlotAt | tf_model2.py:35-38 | one slot's pass sets each changed column to its step's result |
| TfModel2.UpdateSlotOther | tf_model2.py:35-38 | and leaves every other column alone |
| TfModel2.GroupSlotsAt | tf_model2.py:35-43 | after the loop over slots, every slot of every changed column holds its step's result |
| TfModel2.GroupSlotsOther | tf_model2.py:35-43 | columns outside the group's slots are unchanged |
| TfModel2.Pass | tf_model2.py:35-43 | a pass keeps the table's columns, row count and well-formedness |
| TfModel2.PassKeeps | tf_model2.py:35-43 | the track pass leaves every column the tower pass reads as it was |
| TfModel2.FirstGroupSlot | tf_model2.py:35-38 | the tower pass does not undo the track pass |
| TfModel2.SecondGroupSlot | tf_model2.py:39-43 | the tower pass sees the original tower columns |
| TfModel2.BothPassesOther | tf_model2.py:35-43 | columns neither pass changes survive both |
| TfModel2.TrackColumns | tf_model2.py:35-38 | the track loop changes `trackEta`, `trackPhi` and `trackPt` slots |
| TfModel2.TowerColumns | tf_model2.py:39-43 | the tower loop changes `towerEta`, `towerE`, `towerEem` and `towerEhad` slots |
| TfModel2.Transformed | tf_model2.py:34-43 | the transform keeps every column, the row count and real columns real |
| TfModel2.TransformGroup | tf_model2.py:35-43 | the in-place loops over a group compute its pass |
| TfModel2.TransformFrame | tf_model2.py:34-43 | both loops on the frame give the transformed table |
| TfModel2.TrackValues | tf_model2.py:35-38 | `trackEta_i − jetEta`, `trackPhi_i − jetPhi`, `trackPt_i / jetPt`, for each of the 52 slots |
| TfModel2.TowerValues | tf_model2.py:39-43 | `towerEta_i − jetEta`, `towerE/Eem/Ehad_i / jetPt`, for each of the 67 slots |
| TfModel2.TrackSlot | tf_model2.py:35-38 | a changed track slot holds its step's result |
| TfModel2.TowerSlot | tf_model2.py:39-43 | a changed tower slot holds its step's result |
| TfModel2.Untouched | tf_model2.py:35-43 | every column outside the changed slots is unchanged |
| TfModel2.UntouchedColumns | tf_model2.py:35-43 | the jet variables, `trackCharge_i` and `towerPhi_i` are outside the changed slots |
| TfModel2.PaddedTrackSlot | tf_model2.py:36-38 | a zero-padded pT slot stays 0; padded eta and phi slots become −jetEta and −jetPhi |
| TfModel2.PaddedTowerSlot | tf_model2.py:40-43 | padded energy slots stay 0 and a padded eta slot becomes −jetEta |
| TfModel2.TransformedReadable | tf_model2.py:34-53 | the transformed table still has every feature and the unchanged target |
| TfModel2.TransformedBatch | tf_model2.py:48-50 | a batch of the transformed table has `bs` rows |
| TfModel2.BatchGenerator | tf_model2.py:28-53 | one pass of the generator: the batch plan of tf_model.py over the transformed table |
| TfModel2.BoostBatches | tf_model2.py:122 | the boost generator with batch size 200: transformed batches of 200 rows, none for at most 201 rows, otherwise 2 to 201 final rows unread, labels the untransformed is_data |
| TfModel2.InferenceBatches | tf_model2.py:152 | the inference generator with batch size 200: the same plan labelled by the untransformed is_quark |
| TfModel2.BalanceWeight | tf_model2.py:165-170 | `½(1 + N_other/N_own)` gives a class share `N_own` half of the total weight |
| TfModel2.Balanced | tf_model2.py:165-171 | with those weights signal and background carry equal weight |
| TfModel2.ClassWeightFacts | tf_model2.py:128-172 | the constants are the balance weights for 29%/71%: 0.29·w_data = 0.71·w_standard = ½, and the inference weights are the boost ones with the labels swapped |
| TfModel2.BoostTrainingWeights | tf_model2.py:127-131 | one weight per row of the boost batch |
| TfModel2.InferenceWeights | tf_model2.py:156-173 | one positive weight per row of the inference batch |
| TfModel2.InferenceWeightOf | tf_model2.py:156-172 | the inference weight is the boost factor (or 1) times the class weight of the label |
| TfModel2.WeightOfConstant | tf_model2.py:172 | rows of one label with one weight carry count × weight |
| TfModel2.BoostBatchBalanced | tf_model2.py:128-130 | a boost batch with the 29/71 shares has equal total weight per class |
| TfModel2.InferenceBatchBalanced | tf_model2.py:165-172 | an inference batch with the 71/29 shares has equal total weight per class (without boost) |
| TfModel2.BoostSchedule | tf_model2.py:124-141 | the boost loop runs `n_iterations // 10` steps; its `step + 1 == n_iterations` test never holds, so it saves 10 times, at every 10000th step |
| TfModel2.InferenceSchedule | tf_model2.py:154-184 | the inference loop saves 100 times, the last at step 999999, and logs 2000 times |
| Apply.ApplyNet | apply.py:17-20 | the network's first output per row, one value per input row |
| Apply.ChunksPartition | apply.py:65-67 | the chunks `[i, min(n, i+100000))` for `i = 0, 100000, …` are non-empty, adjacent, at most 100000 rows, and cover `[0, n)`; none when `n = 0` |
| Apply.ChunkBounds | apply.py:65-67 | each chunk ends where the next starts, and the last ends at `n` |
| Apply.ChunkOfRow | apply.py:65-67 | each row lies in exactly one chunk, number `k / 100000` |
| Apply.ChunkedPrediction | apply.py:64-68 | one prediction per row |
| Apply.PredictionOfRow | apply.py:65-68 | the prediction of row `k` is the network applied to `k`'s chunk, at `k`'s offset |
| Apply.ChunkRows | apply.py:65-68 | a chunk's network output fills exactly that chunk's rows |
| Apply.RowWise | apply.py:64-68 | for a network that treats rows independently, chunking changes nothing |
| Apply.WriteChunk | apply.py:68 | `p[i:e] = …` writes the chunk and leaves every other entry |
| Apply.FirstChunksPrediction | apply.py:64-68 | after `j` chunks, the prefix written is the prediction's prefix; after all chunks, the whole prediction |
| Apply.FirstChunksStep | apply.py:65-68 | one more chunk extends the correct prefix by its chunk |
| Apply.FirstChunkPrediction | apply.py:65-68 | the first chunk is the prediction's first rows |
| Apply.PredictChunked | apply.py:64-68 | the preallocated array, filled chunk by chunk, is the prediction; that each index lies in exactly one chunk is ChunkOfRow |
| Apply.PredictChunk | apply.py:65-68 | one iteration writes the chunk after the filled prefix |
| Apply.Values | apply.py:60-80 | `data[variables].values`: one feature row per row, in the order of `variables` |
| Apply.ResultTable | apply.py:71-87 | the result table has one row per label |
| Apply.ResultRows | apply.py:71-87 | its columns are `y` and `p`, pairing `y[k]` with `p[k]` |
| Apply.ApplyModel | apply.py:58-92 | the train and test results are the labels next to the chunked predictions of the same features |
| ApplyBoosting.PredictChunkedPrinting | apply_boosting.py:58-64 | the chunked prediction; only the first chunk is printed |
| ApplyBoosting.PrintedFirstChunk | apply_boosting.py:63-64 | what is printed is the prediction's first chunk, and nothing for an empty sample |
| ApplyBoosting.ApplyBoostingModel | apply_boosting.py:52-83 | the predictions of the train and test samples, with the train sample's first chunk printed |

## Left out

- TensorFlow: the networks and losses, Adam, dropout, sessions, checkpoints and graph restore.
  - The network appears only as the parameter `run`.
  - `tf_model.py:126-146` (the predictions after training) is not part of this model.
  - The model names that `apply.py` and `apply_boosting.py` restore are not part of this model.
- sklearn: the ROC AUC values printed by `apply.py` and `apply_boosting.py`.
- ROOT and pickle I/O:
  - Files are modelled as values: a map from file name to events, tables taken as inputs, a written tree or table returned.
  - `OpenFiles`, `GetShapesFromROOTFile`, `glob` and the directory listing are left out. Their result is the sequence of entries.
- Pickle caching in `Examples/flat_helper.py` (lines 32-40 and 123-129) is left out. It is exception-driven file I/O; only the names of the cache files are modelled.
- Messages: progress output and other prints are left out. The exceptions are the two shape-count warnings, the `CreateJetShapes.C` messages and the first-chunk print of `apply_boosting.py`, which are returned as results.
- Randomness: `df.sample(frac=1)` is left out. Batches are planned over the given row order.
- The generator's `while True` is modelled as one epoch.
- Floating point:
  - Values are reals. float32 storage (`array('f')`, `Float_t`, `np.float32`) is not modelled.
  - π and `sqrt` in `deltaPhi`/`deltaR` and in the dispersion are fields of a `Geometry` value. The radial and dispersion values are modelled only as expressions over them.
- JetShapes.Computable (and so CalculateJetShapes, GetJetShapes, CreateJetShapes) requires a non-zero `jetPt` when some track passes the cut.
  - Python raises on that division and C++ gives inf. Neither case is modelled.
- TfModel2.TransformFrame (and Transformed, BatchGenerator) requires `jetPt` to be non-zero on every row. pandas would produce inf or NaN there.
- Flatten.ArgSortDesc fixes one order for ties (the earlier index first).
  - `np.argsort(x)[::-1]` leaves the order of ties unspecified.
  - The properties proved (a permutation, non-increasing values, one order applied to the whole group) hold for the order chosen.
- Flatten.FlattenPickles stops at the first table that does not fit. This stands for the exception numpy raises there.
- When an array column is longer than its key, only the slots the order selects are used. That is what the indexing does.
- FlatHelper.GetJetShapes models `recompute=True`. The cached path returns whatever the pickle held.
- FlatHelper.GetJetShapesFast ignores `offset`, as the source does.
- CreateTrainingSamples.Compatible (and Frames.Concat) requires the tables concatenated to share their column names and kinds.
  - The four flattened pickles are assumed to have the same columns.
  - `pandas.concat` also accepts differing columns: it takes their union and fills the gaps with NaN. That behaviour is not modelled.
- GPU and environment settings are left out (`tf_model2.py:11`, `config.gpu_options`).
