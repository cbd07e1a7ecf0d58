# ReLU vs SELU on VGG11-BN: a verified model of the experiment driver

The repository is one script, `main.py`. It trains a VGG11 network with batch normalization
on six image datasets (MNIST, FashionMNIST, KMNIST, CIFAR10, CIFAR100, SVHN), once with its
ReLU activations and once with every ReLU replaced by SELU. After every epoch it keeps the
weights of the epoch with the best validation loss. It tests those weights once, and it
exports a summary table of the test accuracies, with each dataset's best variant in bold.

This project models the logic of that driver in Dafny and proves properties of it.
The network, the optimizer and the data pipeline are not modelled. What they produce enters
as the parameter `Experiment.Observations`: the per-batch training losses, the validation
batches (loss and predictions), and the test predictions of the weights saved at a given
epoch. Everything the script computes from those values is modelled:

- `ActivationSwap`: `change_relu_to_selu`.
  - `Swap` is the rewrite on tree values.
  - `Module` is a class of module objects with named children. `Module.ChangeReluToSelu`
    performs the rewrite in place and is proved to leave behind `Swap` of the tree it started
    from.
- `Checkpoint`: the best-checkpoint rule. The tracker starts at +infinity, and an epoch is
  saved exactly when its validation loss is strictly below the tracker. The checkpoint file
  is the index of the epoch whose weights it holds.
- `Metrics`: the accumulation loops, as methods with loop invariants.
  - The mean training loss over the batches.
  - The validation pass: loss sum, correct predictions and examples seen.
  - The test pass.
  - `100 * correct / total`.
  - A division by zero, which raises in the script, is `None`.
- `Splits`: the epoch count and the range lists of the two run modes.
  - `--full` runs 20 epochs over the full ranges; otherwise 2 epochs over `r[:10]` of every
    range.
  - The `zip` stops at the six datasets, although four of the lists (the three range lists and
    `mean_std_list`) have seven entries.
- `Summary`: the transposed test-accuracy table, with every cell bold exactly when it equals
  the maximum of its column.
- `Experiment`: the nested dataset, variant and epoch loops.
  - They write into tables allocated up front with shapes (datasets, variants, epochs) and
    (datasets, variants). The class is `Tables`, over `array3<real>` and `array2<real>`.
  - A ghost log records the order in which cells are written.
  - The loops are proved against specification functions of the observations. On success,
    every cell holds its value and the log holds each cell exactly once.

Losses and accuracies are `real`. In the script, a division by zero raises
`ZeroDivisionError` (main.py:171, 186, 188, 209). The model turns each such division into an
error result, and a run that raises yields no
summary (`Experiment.Run` returns `None`).

Three behaviours of main.py worth noting:
- `change_relu_to_selu` (main.py:83-88) only rewrites children. A module that is itself a ReLU is left as it
  is.
- The validation accuracy (main.py:188-189) is computed, and raises when no example was
  seen, but it is only printed, never stored.
- The test pass samples only the configured `test_range` (main.py:146): in a full run
  `range(10000)`, or `range(8000)` for SVHN; in a smoke run its first 10 indices.

## Model

| member | source | states |
|---|---|---|
| ActivationSwap.Swap | main.py:83-88 | the rewrite keeps the root's kind, its type name, and the number, order and names of its children |
| ActivationSwap.SwapIsReplaceAllBelowRoot | main.py:83-88 | below the root the walk replaces every ReLU however deep, i.e. agrees with the independent reference rewrite `ReplaceAll`; a root ReLU is kept |
| ActivationSwap.SwapRemovesRelu | main.py:83-88 | after the rewrite no ReLU is left anywhere below the root |
| ActivationSwap.SwapWithoutReluIsNoOp | main.py:83-88 | on a network with no ReLU below the root the rewrite changes nothing |
| ActivationSwap.SwapIdempotent | main.py:83-88 | rewriting twice equals rewriting once |
| ActivationSwap.SwapKeepsShape | main.py:83-88 | the rewritten tree equals the original once activations are identified: same shape, names and non-activation modules |
| ActivationSwap.SwapAt | main.py:83-88 | the same paths exist after the rewrite, each position holds the reference rewrite of what it held, and a ReLU position now holds a SELU |
| ActivationSwap.SwapCounts | main.py:83-88 | after the rewrite the ReLU count is 0 (1 for a root ReLU) and the SELU count grows by the former ReLU count |
| ActivationSwap.Module.Activation | main.py:86 | a fresh, valid activation object made only of new objects, forming the ReLU or SELU leaf |
| ActivationSwap.Module.Container | main.py:152 | a fresh, valid container module with the given type name and no children; with `AddChild` it builds module trees such as the one `vgg11_bn()` returns |
| ActivationSwap.Module.AddChild | main.py:152 | `add_module` for a new name: the child becomes the last named child, the footprint grows by the child's, and the tree gains `(name, child tree)` at the end |
| ActivationSwap.Module.ChangeReluToSelu | main.py:83-88 | the in-place walk leaves the objects forming exactly `Swap` of the old tree, with no ReLU below the root, the object structure valid and only fresh objects added; the names are kept, each former ReLU child is a fresh object and every other child is the same object as before |
| ActivationSwap.Module.RewriteChildAt | main.py:84-88 | one iteration of the walk: child i becomes a fresh SELU if it was a ReLU, otherwise it stays the same object and is rewritten recursively; every other child, object and name is left unchanged |
| ActivationSwap.RewriteChild | main.py:85-88 | a ReLU child is replaced by a fresh SELU object; any other child is the same object, rewritten in place |
| Checkpoint.Observe | main.py:190-192 | the definition of the per-epoch `if validation_loss < validation_loss_best` step; what it implies over a run of epochs is proved by `TrackBest`, `SavesAtIff` and `SavedIsEarliestMinimum` |
| Checkpoint.Track | main.py:157-192 | the definition of `validation_loss_best` and the checkpoint file across the epoch loop, `Observe` applied epoch by epoch from +infinity; its properties are `TrackBest`, `SavesAtIff`, `SavedIsEarliestMinimum` and `SavedIsLastSave` |
| Checkpoint.TrackBest | main.py:157-192 | after any epochs the tracker holds the minimum validation loss (+infinity before any epoch), and a checkpoint exists exactly when an epoch has run and names one of them |
| Checkpoint.FirstEpochSaves | main.py:157-192 | the first epoch always saves, since every loss is below the initial +infinity |
| Checkpoint.SavesAtIff | main.py:190-192 | epoch i saves exactly when it is the first epoch or its loss is strictly below the minimum of all earlier losses |
| Checkpoint.SavedIsEarliestMinimum | main.py:157-197 | the checkpoint the test pass loads is an epoch with the minimum loss, and every earlier epoch had a strictly larger loss (ties keep the earlier one) |
| Checkpoint.SavedIsLastSave | main.py:190-197 | the loaded checkpoint is from the last epoch that saved: no later epoch saved |
| Metrics.Accuracy | main.py:188 | the accuracy raises (None) exactly when no example was seen |
| Metrics.AccuracyIsPercentage | main.py:209 | with examples seen, accuracy x total = 100 x correct, and it lies in [0, 100] when correct <= total |
| Metrics.MeanLoss | main.py:160-171 | the training loop's result is the mean of the batch losses, and None (a division by zero) when there is no batch |
| Metrics.ValidationPass | main.py:174-186 | the loss is the mean of the validation batch losses (None without batches), correct counts the predictions equal to their target, total counts every example |
| Metrics.CountCorrect | main.py:199-208 | correct counts the test predictions equal to their target, total counts every example, and correct <= total |
| Metrics.MatchesAppend | main.py:184 | accumulating per batch gives the same count as counting over all examples at once |
| Metrics.MatchesCountsPositions | main.py:183-184 | the correct count is the number of positions whose argmax equals the target |
| Metrics.MatchesAtMostLength | main.py:207-208 | correct never exceeds total |
| Metrics.FlattenLength | main.py:185 | total is the sum of the batch sizes |
| Metrics.AccuracyOfBatches | main.py:199-209 | when exactly k of the n examples seen are predicted correctly, the recorded accuracy is 100k/n, between 0 and 100 |
| Metrics.MeanBetweenExtremes | main.py:171 | a mean loss lies between the smallest and the largest batch loss |
| Splits.ElementsAreContained | main.py:34-62 | an index is yielded by `range(start, stop)` exactly when start <= index < stop |
| Splits.TruncateIsPrefix | main.py:111-113 | `r[:k]` is the prefix of r of length min(k, len(r)) |
| Splits.Truncate | main.py:111-113 | the definition of `r[:k]` on a range; that it yields the prefix of length min(k, len(r)) is `TruncateIsPrefix` |
| Splits.Configure | main.py:107-113 | the definition of the `args.full` branch (epoch count and range lists); what the ranges of each mode contain is proved by `SmokeRangesArePrefixes` and `TrainValidationDisjoint` |
| Splits.TruncateAll | main.py:111-113 | the definition of the three `[r[:10] for r in ...]` comprehensions; their content is proved by `TruncateIsPrefix` and `SmokeRangesArePrefixes` |
| Splits.Entries | main.py:122 | the definition of the six-way `zip`; that it stops at six entries and never reads the seventh is proved by `ZipUsesSixEntries` and `SeventhEntryIgnored` |
| Splits.RunEntries | main.py:122 | the definition of the entries the dataset loop iterates over; their number and content are `ZipUsesSixEntries`, `TrainValidationDisjoint` and `SmokeRangesArePrefixes` |
| Splits.ValidationFollowsTrain | main.py:34-52 | every training range starts at 0 and its validation range starts where it ends and is non-empty |
| Splits.AdjacentRangesDisjoint | main.py:34-52 | a range ending where another begins shares no index with it |
| Splits.TrainValidationDisjoint | main.py:34-52 | in both run modes a dataset's training and validation indices are disjoint; in a full run together they are exactly the indices below the end of the validation range |
| Splits.ZipUsesSixEntries | main.py:122 | the dataset loop runs over exactly 6 entries while the range and statistics lists have 7, entry i using position i of each |
| Splits.SeventhEntryIgnored | main.py:122 | changing the seventh entries of the lists changes nothing the loop sees |
| Splits.SmokeRangesArePrefixes | main.py:111-113 | in the smoke run every range of every entry is the first 10 indices of the configured one |
| Summary.Transpose | main.py:226 | the definition of `test_accuracy_array.T`; that it is an involution is `TransposeTwice`, and what the transposed summary shows is `SummaryCell` |
| Summary.TransposeTwice | main.py:226 | transposing back gives the original table |
| Summary.MaxIsMaximum | main.py:227 | a column maximum is at least every entry of its column and is one of them |
| Summary.Column | main.py:227 | the definition of the column that `.max(0)` reduces; that its maximum decides the bold cells is `BoldIffColumnMaximum` |
| Summary.ColumnMaxima | main.py:227 | the definition of `test_accuracy_array.max(0)`, one maximum per column; that each is its column's maximum is `MaxIsMaximum`, and that it decides the bold cells is `BoldIffColumnMaximum` |
| Summary.Render | main.py:228 | the formatted table has the shape of the input; what each cell shows is stated by `BoldIffColumnMaximum` |
| Summary.BoldIffColumnMaximum | main.py:227-228 | a rendered cell keeps its value and is bold exactly when no cell of its column is larger |
| Summary.EveryColumnHasBold | main.py:227-228 | every column of a non-empty table has a bold cell |
| Summary.SummaryTable | main.py:226-229 | the summary has one row per variant and one column per dataset |
| Summary.SummaryCell | main.py:226-229 | summary cell (v, d) shows the accuracy of variant v on dataset d, bold exactly when no variant did better on d |
| Experiment.VariantTrees | main.py:151-154 | the ReLU variant trains the base network; the SELU variant has no ReLU below the root and the same shape |
| Experiment.VariantTree | main.py:153-154 | the definition of the network a variant trains: `change_relu_to_selu` applied for "SELU" only; its properties are `VariantTrees`, and `PrepareVariant` produces it in place |
| Experiment.PrepareVariant | main.py:153-154 | the model object forms the variant's network afterwards, the rewrite applied only for "SELU" |
| Experiment.ValidationLosses | main.py:186-187 | the definition of the per-epoch validation losses of a pair (the row `validation_loss_array[d, v]`); the checkpoint chosen over them is `TestUsesEarliestBestEpoch` |
| Experiment.TestUsesEarliestBestEpoch | main.py:157-197 | with at least one epoch, the test pass uses the weights of the earliest epoch with the smallest validation loss |
| Experiment.SavedEpoch | main.py:190-197 | the definition of the epoch whose weights `model_path` holds when the test pass loads it; that it is the earliest epoch with the smallest validation loss is `TestUsesEarliestBestEpoch` |
| Experiment.EpochsOkPrefix | main.py:159-193 | a pair whose epochs all complete completes every prefix of them |
| Experiment.EpochsLogOnce | main.py:159-187 | the epoch loop writes each training and validation cell of its pair exactly once and nothing else |
| Experiment.VariantsLogOnce | main.py:151-210 | the variant loop writes each cell of its dataset exactly once and nothing else |
| Experiment.RunLogWritesEachCellOnce | main.py:116-210 | the complete run writes every cell of the three tables exactly once and no cell outside them |
| Experiment.OccurrencesAppend | main.py:116-210 | occurrences in a log made of two parts add up |
| Experiment.Tables.constructor | main.py:116-118 | the tables are allocated with shapes (datasets, variants, epochs) and (datasets, variants), zero-filled, nothing yet written |
| Experiment.Tables.WriteTrainLoss | main.py:172 | the training loss cell (d, v, e) is set, logged, and no other cell changes |
| Experiment.Tables.WriteValidationLoss | main.py:187 | the validation loss cell (d, v, e) is set, logged, and no other cell changes |
| Experiment.Tables.WriteTestAccuracy | main.py:210 | the test accuracy cell (d, v) is set, logged, and no other cell changes |
| Experiment.RunEpoch | main.py:159-188 | an epoch completes exactly when it had a training batch and the validation pass saw an example; then it records the mean training and validation losses in cell (d, v, e) only, and returns the validation loss |
| Experiment.EpochStep | main.py:159-193 | one epoch followed by the checkpoint rule: on success the tracker is the rule applied to one more epoch, and a failing epoch means the pair does not complete |
| Experiment.RunEpochs | main.py:157-193 | the epoch loop completes exactly when every epoch does; the tracker is then the checkpoint rule over all validation losses, every epoch cell of the pair holds its value, and other pairs' cells are untouched |
| Experiment.RunTest | main.py:194-210 | the test pass completes exactly when it saw an example, and then records the accuracy of the loaded weights' predictions in cell (d, v) only |
| Experiment.RunPair | main.py:152-210 | a pair completes exactly when its epochs complete, a checkpoint exists and the test pass saw an example; all its cells then hold their values, in the write order of the script; every cell of every other pair keeps its old value |
| Experiment.VariantStep | main.py:151-210 | one variant of the loop, given that earlier variants completed: the loop can go on exactly when this pair completes, and every cell outside dataset d keeps its old value |
| Experiment.RunDataset | main.py:151-210 | the variant loop of a dataset completes exactly when every one of its pairs does, and then every pair of the dataset holds its values; every cell outside dataset d keeps its old value |
| Experiment.ExpectedAccuracy | main.py:210 | the definition of the accuracies `test_accuracy_array` holds after a completed run; that the summary shows them is `SummarizeCompletedRun` and `SummaryShowsTestAccuracy` |
| Experiment.Rows | main.py:226 | the definition of the accuracy array read as rows; that after a completed run they are the recorded accuracies is `SummarizeCompletedRun` |
| Experiment.SummarizeCompletedRun | main.py:226-229 | after a completed run the summary table read off the array is the summary of the recorded test accuracies |
| Experiment.Summarize | main.py:226-228 | the definition of the summary read off `test_accuracy_array`; after a completed run `SummarizeCompletedRun` and `SummaryShowsTestAccuracy` state what it shows |
| Experiment.SummaryShowsTestAccuracy | main.py:226-229 | cell (v, d) of the summary shows the test accuracy of variant v on dataset d, bold exactly when no variant did better on d |
| Experiment.DatasetStep | main.py:122-210 | one dataset of the loop, given that earlier datasets completed: the loop can go on exactly when every pair of this dataset completes; every cell outside dataset d keeps its old value |
| Experiment.RunDatasets | main.py:122-210 | the dataset loop completes exactly when every pair completes, and then every cell holds its value, written in the script's order |
| Experiment.Run | main.py:106-229 | the tables are shaped 6 x 2 x (20 or 2 epochs), with one dataset row per entry of the `zip`; a summary is produced exactly when no pair raises, and then every cell was written once in order and the summary is the bold-maximum table of the recorded test accuracies |

## Left out

- The network, the loss function, back-propagation and the SGD step are not modelled
  (main.py:152, 156, 161-170). What they produce is the `Observations` input.
- The VGG11-BN architecture is not modelled. `change_relu_to_selu` is proved for every tree
  of named modules.
- Floating-point arithmetic is not modelled: losses and accuracies are mathematical reals, so
  NaN losses and rounding are not captured. With reals, the first epoch always saves. A
  checkpoint can only be missing when there are no epochs, and that case is treated as a
  failed test pass.
- Loading data is not modelled: downloading, caching and transforms (main.py:123-143), the
  number of classes (main.py:147-150), `SubsetRandomSampler` shuffling and `DataLoader`
  batching (main.py:144-146). Which examples fall into which batch is part of the
  observations.
- Saving and loading weights is modelled only as the index of the saved epoch
  (main.py:158, 192, 194-197). If no epoch saved, the script would load a file left by an
  earlier run, or fail when there is none; the model treats this as a failure.
- Seeding, cuDNN flags and device selection are left out: they do not affect the control
  flow (main.py:93-96, 106).
- Argument parsing is left out (main.py:98-102). `full` is a parameter of `Experiment.Run`.
- The learning rate and batch sizes are left out, since they only affect the external
  library (main.py:114-115, 119).
- The parameter count (main.py:155) is left out. It is stored in `num_parameters` but never
  used.
- All printing is left out (main.py:189, 193, 211). The validation accuracy it prints is
  modelled only through its division by zero.
- The configuration CSV and the loss plots are left out as file output (main.py:64-81,
  213-224). The LaTeX export is left out too (main.py:229-230), and so is number formatting
  (`{x:.2f}`): a cell keeps its value and is marked bold or plain.
- `ActivationSwap.Module.ChangeReluToSelu` requires that no module object appears twice in
  the tree. `named_children` keeps a fresh set of visited modules on each call. So PyTorch
  skips a module shared by two children of the same parent, but visits a module shared
  across different parents once under each parent. Neither case is modelled.
- ActivationSwap.Module.AddChild requires a name not yet registered. Registering an existing
  name again, which replaces that child in PyTorch, is not modelled. The network is built by
  `vgg11_bn()`, which is not part of this model.
- Experiment.RunEpoch: when an epoch raises, its contract does not say which cells were
  already written. The script leaves a partial row behind; the model only reports the
  failure.
- Experiment.RunPair, Experiment.RunDataset and Experiment.RunDatasets do not describe the
  partially written tables after a failure either. The script stops there, so nothing reads
  those tables.
- The dataset-pool sizes that bound each range (such as 73257 SVHN training
  images) belong to the datasets, not to the script. Whether each range fits inside its pool
  is not modelled.
