# Checkpoint lifecycle and fold training loop of CEIMPA

This project is a Dafny model of two parts of the CEIMPA training pipeline, with proofs about that model.

The first part is the checkpoint of a cross-validation fold (`src/checkpoint.py`):
- how it is built fresh or resumed from the first `.pt` file whose path contains its series name;
- how it tracks the current and the best validation result;
- how it writes and deletes `name_at_epoch_N.pt` files;
- how it selects the model type and the optimizer.

The second part is `train_and_eval` (`src/train_and_test.py`, lines 50-214), the driver around the checkpoint. For each fold it:
- skips the fold when its status check says it is done;
- otherwise resumes the `checkpoint_latest` series and runs the epoch loop. The loop has the early-stop counter, the best branch gated on the rounded `metrics[8]` and the rotation of the `checkpoint_best` and `checkpoint_latest` files;
- computes the terminal epoch and renames that latest file to `checkpoint_last`;
- writes the fold's test-results log.

At the end it averages the folds' best checkpoints, unless the averages log already exists.

Structure of the model:
- The save root is one `FileSystem` object. It maps each folder path to its files.
- A file is a serialised bundle, an unreadable file or a log.
- Training, evaluation, Python's `round`, the fold status check, the order `glob` lists files in, the model constructors and the tracking id are oracles, collected in `TrainAndTest.Oracles`. `train` and `evaluate` take no fold index, so every fold trains and evaluates through the same two functions; no proved property depends on that.

Each imperative part is a method proved against a pure function:
- `Checkpoint.Open` against `Resume`;
- `RunEpochs` against `Loop`;
- `TrainFold` against `RunFold`;
- `ComputeAverages` against `AverageBest`;
- `TrainAndEval` against `TrainAndEvalRun`.

The properties of the source are lemmas about those functions.

Modules:
- `Wrappers`: `Option`, `Result`.
- `Naming`: Python's `str` on ints, file names, substring search, the `*.pt` pattern.
- `Checkpoints`: `src/checkpoint.py`.
- `TrainAndTest`: the epoch loop of `src/train_and_test.py`.
- `Averaging`: lines 200-214.
- `Driver`: folds, terminal epoch, whole run.

Two behaviours of the code that are easy to misread:
- **Terminal epoch.** The code's terminal epoch is `epoch if epoch == epochs else epoch - 1` (lines 175-178). It does not name the surviving latest file when early stop is set at `epochs - 1`. `Driver.FinalizeAfterLoop` proves exactly when the rename happens and when it silently does nothing.
- **Averaged loss.** The averaged loss uses each best checkpoint's current `eval_valid.mean_loss` (line 209), not the best result's loss.
- **Saving after a resume.** A resume rebuilds both evaluations as `namedtuple` records (`src/checkpoint.py:70-71`). `save_checkpoint` calls `vars` on both (lines 109-110), and `vars` of a `namedtuple` raises TypeError. The first `update_eval_valid` replaces the current result. The best is replaced only when the first worked epoch strictly improves on the loaded best. Otherwise the first save of that epoch (line 121 or 150) raises. The model keeps this: `Checkpoint.CanSave` is false while either evaluation is a loaded record. The loop then stops with `SaveFailed`, and the fold's folder keeps only its training log in addition to what it held. `Driver.ResumedFoldFailsUnlessImproved` states exactly when this happens.

## Model

| member | source | states |
|---|---|---|
| Naming.NatToStringDigits | src/checkpoint.py:115 | `str` of a non-negative int: at least one character, all decimal digits, two or more from ten on |
| Naming.IntToStringInjective | src/checkpoint.py:115 | different epochs print differently, so every epoch has its own file name |
| Naming.IntToStringSign | src/checkpoint.py:115 | the printed epoch starts with a minus sign exactly for negative epochs |
| Naming.FileName | src/checkpoint.py:115 | definition: the file a series saves at an epoch, `name + '_at_epoch_' + str(epoch) + '.pt'`; `FileNameShape` and the injectivity lemmas state its properties |
| Naming.FileNameShape | src/checkpoint.py:115 | `name + '_at_epoch_' + str(epoch) + '.pt'` starts with the series name and ends in `.pt` |
| Naming.FileNameInjective | src/checkpoint.py:115 | two files of one series coincide only at the same epoch |
| Naming.FileNamesOfDistinctSeries | src/checkpoint.py:115 | files of series whose names differ at some position never coincide |
| Naming.FileNameIsPtName | src/checkpoint.py:57 | a series file is matched by the `*.pt` glob |
| Naming.IsPtName | src/checkpoint.py:57 | definition: the names the `*.pt` glob matches, a `.pt` suffix and no leading dot |
| Naming.Contains | src/checkpoint.py:58 | definition: Python's substring test `name in checkpoint_path`, some position where the needle occurs |
| Naming.PathOfFileNameContains | src/checkpoint.py:58 | the path of a series file contains the series name, so `name in checkpoint_path` finds it |
| Checkpoints.GetNewModel | src/checkpoint.py:129-143 | succeeds exactly for a key of the model map and returns that entry; an unknown name is an `UnknownModel` error, never a fallback |
| Checkpoints.GetNewModelFindsEveryKind | src/checkpoint.py:129-143 | every model-map entry is found under its own key |
| Checkpoints.GetNewModelNamesKind | src/checkpoint.py:129-141 | a model found for a type name is the kind of that name, and the lookup fails exactly for a name no kind has |
| Checkpoints.GetNewOptimizer | src/checkpoint.py:163-168 | AdamW exactly for 'AdamW', SGD with momentum exactly for 'SGD', Adam with weight decay for every other name; all use the learning rate |
| Checkpoints.NextBest | src/checkpoint.py:79-88 | the first result bootstraps the best; while the current result is None the best stays; after that the best is replaced only by a strict improvement (lower loss for an autoencoder, higher `metrics[5]` otherwise) |
| Checkpoints.BestStaysLoaded | src/checkpoint.py:79-88 | definition: after `update_eval_valid`, the best is still the record a resume rebuilt unless the bootstrap or a strict improvement replaced it with a copy of the new result; `LoadedBestReplacedOnImprovement` states when |
| Checkpoints.LoadedBestReplacedOnImprovement | src/checkpoint.py:82-88 | a loaded best beside a current result stays loaded exactly when the new result does not strictly improve on it, and then it is still the best; a best that was not loaded never becomes loaded |
| Checkpoints.NextBestNeverWorse | src/checkpoint.py:82-88 | one update never makes the best worse under the mode's rule and yields either the old best or the new result |
| Checkpoints.BestAfter | src/checkpoint.py:79-90 | no updates leave the best as it was; any update leaves a best |
| Checkpoints.FreshBestIsMaxMetric5 | src/checkpoint.py:79-88 | classification mode from a fresh checkpoint: the best is one of the results and carries the largest `metrics[5]` seen |
| Checkpoints.FreshBestIsMinLoss | src/checkpoint.py:79-85 | autoencoder mode from a fresh checkpoint: the best is one of the results and carries the smallest loss seen |
| Checkpoints.BestMetric5NeverDecreases | src/checkpoint.py:86-88 | classification mode: the best `metrics[5]` never decreases across updates |
| Checkpoints.BestLossNeverIncreases | src/checkpoint.py:83-85 | autoencoder mode: the best loss never increases across updates |
| Checkpoints.ClassificationBestExample | src/checkpoint.py:86-88 | `metrics[5]` values 0.3, 0.5, 0.4, 0.6 leave the best at 0.3, 0.5, 0.5, 0.6 |
| Checkpoints.AutoencoderBestExample | src/checkpoint.py:83-85 | losses 1.0, 0.8, 0.9, 0.5 leave the best loss at 1.0, 0.8, 0.8, 0.5 |
| Checkpoints.FirstMatch | src/checkpoint.py:57-58 | the index of the first listed path containing the name, every earlier path not containing it; None when no path contains it |
| Checkpoints.Resume | src/checkpoint.py:43-75 | definition of the constructor as a value: an unknown model type fails. Otherwise the first listed path containing the name is loaded, starting at its epoch + 1 with its state, both evaluations and its tracking id. An unreadable match fails, and so does a match without a tracking id when tracking is on. With no match the checkpoint starts fresh at epoch 1. A loaded checkpoint marks both evaluations as rebuilt records. The `Resume*` lemmas and `SaveThenResume` state these cases |
| Checkpoints.ResumeUnknownModel | src/checkpoint.py:43 | an unknown model type fails construction whatever the folder holds |
| Checkpoints.ResumeWithoutMatch | src/checkpoint.py:49-53 | with no matching path: start epoch 1, both evaluations None and not loaded records, fresh state, tracking id only when tracking is enabled |
| Checkpoints.ResumeLoadsFirstMatch | src/checkpoint.py:57-72 | only the first match is loaded: start epoch is its epoch + 1; state, both evaluations and, with tracking enabled, the tracking id come from that same file; both evaluations are marked as rebuilt records |
| Checkpoints.ResumeCorruptMatchFails | src/checkpoint.py:61 | a first match `torch.load` cannot read is an error, not a fresh start |
| Checkpoints.ResumeHasWandbId | src/checkpoint.py:50-51 | a checkpoint built with tracking enabled has a tracking id |
| Checkpoints.SaveThenResume | src/checkpoint.py:115 | round trip: a bundle saved for epoch N as the only match is resumed at N + 1 with its state, its evaluations (marked as rebuilt records) and, with tracking enabled, its tracking id |
| Checkpoints.FileSystem.Write | src/checkpoint.py:115 | creates or overwrites the one file and changes nothing else |
| Checkpoints.FileSystem.Remove | src/checkpoint.py:183 | removes the one file and changes nothing else |
| Checkpoints.Checkpoint.Open | src/checkpoint.py:43-75 | the constructor's loop over the listing with `break` yields what `Resume` says, failing exactly when it does |
| Checkpoints.Checkpoint.UpdateEvalValid | src/checkpoint.py:77-90 | the current result becomes the new one and is no longer a loaded record; the best becomes `NextBest` of the old best and current, and stays a loaded record exactly as `BestStaysLoaded` says |
| Checkpoints.Checkpoint.CanSave | src/checkpoint.py:103-113 | definition: the state dictionary can be built, that is both evaluations are set and neither is a record a resume rebuilt (`vars` rejects those), and the tracking id is set when tracking is enabled |
| Checkpoints.Checkpoint.SaveCheckpoint | src/checkpoint.py:103-115 | succeeds exactly when `CanSave` holds and then writes exactly `FileName(name, epoch)` with epoch, state and both evaluations (`Wandb_ID` only with tracking enabled), leaving every other file; when it raises nothing is written |
| Checkpoints.Checkpoint.DeleteCheckpoint | src/checkpoint.py:182-183 | removes that exact file when present; otherwise, e.g. for epoch -1, nothing changes |
| TrainAndTest.TrailingNonBest | src/train_and_test.py:125-142 | the early-stop counter is at most the number of worked epochs |
| TrainAndTest.IsBestEpoch | src/train_and_test.py:114-120 | definition: the best-branch gate `improvement_identified and no_overfitting or epoch == 1` on the rounded `metrics[8]`, with `no_overfitting` true when the train error is not computed |
| TrainAndTest.StopsEarly | src/train_and_test.py:146-148 | definition: a zero patience switches early stop off; otherwise it fires once the counter reaches the patience |
| TrainAndTest.CounterCountsConsecutiveNonBest | src/train_and_test.py:142-148 | a counter of k means the last k epochs were all non-best |
| TrainAndTest.ConsecutiveNonBestCounts | src/train_and_test.py:142-148 | conversely, k consecutive non-best epochs at the end make the counter at least k |
| TrainAndTest.CounterIffConsecutiveNonBest | src/train_and_test.py:142-148 | the counter reaches k exactly when the last k epochs were all non-best, so early stop fires exactly after `patience` consecutive non-best epochs |
| TrainAndTest.BestEpochResets | src/train_and_test.py:125-127 | the best branch sets the counter to 0, the best metrics to the current ones and the last best epoch to this epoch |
| TrainAndTest.OtherEpochCounts | src/train_and_test.py:141-142 | any other epoch raises the counter by exactly 1 and keeps the best metrics and the last best epoch |
| TrainAndTest.RoundedRunningBestNeverDecreases | src/train_and_test.py:114-127 | past epoch 1 the rounded loop-local best `metrics[8]` never decreases |
| TrainAndTest.RemoveFile | src/checkpoint.py:182-183 | `delete_checkpoint` on a folder's files removes exactly that file and keeps every other file with its content |
| TrainAndTest.SeriesAreDisjoint | src/train_and_test.py:121-152 | latest, best and last files never coincide |
| TrainAndTest.LatestSaveKeepsBest | src/train_and_test.py:150-152 | the latest save and delete leave the best series unchanged |
| TrainAndTest.BestSaveKeepsLatest | src/train_and_test.py:121-123 | the best save and delete leave the latest series unchanged |
| TrainAndTest.LatestRotates | src/train_and_test.py:150-152 | from the single latest file of the previous epoch (none at epoch 1) to the single latest file of this epoch |
| TrainAndTest.BestRotates | src/train_and_test.py:121-123 | from the single best file of the previous best (none for the sentinel -1) to the single best file of this epoch |
| TrainAndTest.BestSaveKeepsOtherBest | src/train_and_test.py:121-123 | a best file of any epoch other than the deleted previous best survives the best branch |
| TrainAndTest.ResumeContinuesRotation | src/train_and_test.py:80 | after rotation leaves one latest file of epoch E, resuming starts at E + 1 with the folder tidy for that start |
| TrainAndTest.BestSaveTouchesOnlyBest | src/train_and_test.py:121-123 | the best branch changes no file outside the best series |
| TrainAndTest.LatestSaveTouchesOnlyLatest | src/train_and_test.py:150-152 | the latest save changes no file outside the latest series |
| TrainAndTest.StepAddsOnlySeries | src/train_and_test.py:121-152 | every file an iteration adds is a latest or best file |
| TrainAndTest.StepKeepsOthers | src/train_and_test.py:121-152 | an iteration keeps every file outside the two series with its content |
| TrainAndTest.BestSaveHolds | src/train_and_test.py:121-123 | after the best branch, this epoch's best file holds the bundle just saved |
| TrainAndTest.StepKeepsBestHolds | src/train_and_test.py:121-127 | after an iteration the last best epoch's file holds that epoch's bundle |
| TrainAndTest.StepKeepsStaleBest | src/train_and_test.py:121-123 | best files of epochs before the start (left by an earlier run) are never deleted, since a resumed fold restarts the last best epoch at -1 |
| TrainAndTest.StepKeepsTidy | src/train_and_test.py:121-152 | one iteration keeps exactly one latest file at the current epoch and, from a fresh fold, exactly one best file at the last best epoch |
| TrainAndTest.StepSavesLatest | src/train_and_test.py:150 | after an iteration, this epoch's latest file holds this epoch's bundle |
| TrainAndTest.FolderStep | src/train_and_test.py:121-152 | one iteration keeps the folder invariant |
| TrainAndTest.EvalsStep | src/train_and_test.py:105 | the checkpoint's evaluations follow `update_eval_valid` over the recorded validation results |
| TrainAndTest.StopStep | src/train_and_test.py:146-148 | when no earlier epoch set early stop (a nonzero patience reached by the counter), appending the next epoch keeps that true for every epoch before it, so the loop breaks only after the first stop |
| TrainAndTest.TraceStep | src/train_and_test.py:94-127 | appending the iteration's record keeps every record following from the ones before it |
| TrainAndTest.SaveFails | src/train_and_test.py:105-150 | definition: the iteration at this state raises at its first save, since its `update_eval_valid` leaves the best a loaded record |
| TrainAndTest.FirstSaveFails | src/train_and_test.py:94-150 | definition: the loop has epochs left and its first iteration raises at its first save |
| TrainAndTest.PureEpoch | src/train_and_test.py:96-152 | definition: one iteration that does not break, on values: train, evaluate, the best gate against the running best, the counter, early stop and the two rotations |
| TrainAndTest.Loop | src/train_and_test.py:94-152 | definition: the loop from a state to its end: past `epochs`; at the iteration after early stop, which binds `epoch` and breaks; or at an iteration whose first save raises, which binds `epoch` and fails. `LoopOutcome` states what it yields |
| TrainAndTest.EvaluateEpoch | src/train_and_test.py:99-120 | trains and evaluates through the oracles, updates the checkpoint's evaluations, and takes the best branch exactly when `(improvement_identified and no_overfitting) or epoch == 1`, with `no_overfitting` true when the training error is not computed |
| TrainAndTest.SaveBest | src/train_and_test.py:121-123 | saves best at `epoch`, then deletes best at the previous best epoch; succeeds exactly when `CanSave` holds, and otherwise changes no file |
| TrainAndTest.SaveLatest | src/train_and_test.py:150-152 | saves latest at `epoch`, then deletes latest at `epoch - 1` unless at epoch 1; succeeds exactly when `CanSave` holds, and otherwise changes no file |
| TrainAndTest.TrainEpoch | src/train_and_test.py:95-152 | one non-breaking iteration: the record and the new checkpoint state and evaluations. The epoch's saves raise exactly when the best is still a loaded record, and then no file changes. Otherwise: the counter reset or increment, early stop, the folder after both rotations, and this epoch's latest file holding the saved bundle. The checkpoint's model, optimizer, start epoch and tracking id stay as they were |
| TrainAndTest.LoopContinues | src/train_and_test.py:94-152 | an iteration that neither breaks nor raises hands the rest of the loop the state `PureEpoch` gives |
| TrainAndTest.LoopStopsAtFailedSave | src/train_and_test.py:94-150 | an iteration whose first save raises ends the loop with `epoch` bound to it and the loop state otherwise as it was |
| TrainAndTest.Iteration | src/train_and_test.py:95-152 | one non-breaking iteration on the loop's state: it raises exactly where `SaveFails` says, writing nothing and leaving the best as it was; otherwise the loop variables, checkpoint and folder become what `PureEpoch` gives |
| TrainAndTest.LoopStep | src/train_and_test.py:94-152 | one iteration keeps the loop invariant |
| TrainAndTest.IterationKeepsInv | src/train_and_test.py:94-152 | the invariant step, with the iteration's record and result spelled out |
| TrainAndTest.LoopKeepsInv | src/train_and_test.py:94-96 | the loop keeps its invariant and ends past `epochs`, at the break after early stop, or at an iteration whose first save raises |
| TrainAndTest.InitialInv | src/train_and_test.py:55-58 | the reset bookkeeping of lines 55-58 satisfies the loop invariant before the first iteration |
| TrainAndTest.InvAtEnd | src/train_and_test.py:94-152 | at either way out of the loop, past `epochs` or at the break, the invariant gives how the loop ended (`EndedAs`) |
| TrainAndTest.LoopOutcome | src/train_and_test.py:55-152 | the loop raises exactly when `FirstSaveFails` holds, having worked no epoch and with the folder unchanged. Otherwise epochs run from the start epoch up to `epochs`, each following from the last by the oracles. The loop stops once patience consecutive epochs were not best; the break happens before any work. Python's `epoch` is left one past the last worked epoch exactly when early stop cut the range short. The counter, the best metrics and the last best epoch are those of the recorded epochs. Files outside the series are kept. From a tidy folder, one latest and (for a fresh fold) one best file remain. The last latest file holds the final state. With no epochs left, no epoch runs and nothing changes |
| TrainAndTest.FirstSaveFailsOnlyAfterResume | src/train_and_test.py:94-150 | the first save raises only for a checkpoint whose best a resume loaded, and then exactly when the first worked epoch does not strictly improve on that best |
| TrainAndTest.RunEpochs | src/train_and_test.py:55-173 | the loop with its mutable checkpoint and folder ends as `Loop` says, including whether it raised. Where it raised, the checkpoint holds that epoch's training and evaluation. Only the fold's folder changes, and the checkpoint's model, optimizer, start epoch and tracking id stay as they were |
| TrainAndTest.FoldDirsDiffer | src/train_and_test.py:207 | different folds have different folders |
| TrainAndTest.FilesOfOther | src/train_and_test.py:207 | writing one folder leaves the files of every other folder as they were |
| Averaging.CollectBests | src/train_and_test.py:206-209 | collecting k folds yields k results or an error |
| Averaging.FoldBest | src/train_and_test.py:207-209 | definition: a fold's best and current validation results from its `checkpoint_best` checkpoint; no best result is an error |
| Averaging.CollectedPerFold | src/train_and_test.py:206-209 | a successful collection holds each fold's best-checkpoint results in fold order |
| Averaging.FirstFailingFold | src/train_and_test.py:206-209 | a failed collection fails as the first fold whose best checkpoint cannot be built or has no best result |
| Averaging.FailureStops | src/train_and_test.py:206-209 | once a fold fails, later folds are not read |
| Averaging.ReadFoldBest | src/train_and_test.py:207-209 | opening a fold's best checkpoint on the folder tree yields what `FoldBest` says and writes nothing |
| Averaging.WidthBounds | src/train_and_test.py:208 | the zipped width is at most ten and at most every fold's metric count, and equals one of them |
| Averaging.MetricsSumIsColumns | src/train_and_test.py:204-208 | `metrics_sum` has the zipped width, and each entry is the sum over folds of that best metric |
| Averaging.LossSumIsTotal | src/train_and_test.py:203-209 | `mean_loss_sum` is the sum of the folds' current mean losses |
| Averaging.FoldMean | src/train_and_test.py:211-212 | each metric average is its column sum divided by `num_cv`; the loss average is the sum of the current losses divided by `num_cv` |
| Averaging.AverageOf | src/train_and_test.py:211-212 | definition: the metric sums and the loss sum each divided by `num_cv`; `FoldMean` states the result |
| Averaging.AverageBest | src/train_and_test.py:200-212 | definition of the averaging step: nothing when the averages log exists; otherwise the log, the collection of the folds and the division, failing without folds. `ComputeAverages` is proved against it |
| Averaging.AverageIsFoldMean | src/train_and_test.py:200-212 | computed averages mean the log was absent, `num_cv > 0`, and every fold yielded its results |
| Averaging.UniformWidth | src/train_and_test.py:208 | folds with n metrics each give an average of min(10, n) entries |
| Averaging.NoFoldsNoAverage | src/train_and_test.py:206-212 | with no folds, the averaging fails instead of producing a result |
| Averaging.ComputeAverages | src/train_and_test.py:200-212 | the averaging step on the folder tree: skipped, leaving everything unchanged, when the log exists; otherwise as `AverageBest` says |
| Driver.LogInNoSeries | src/train_and_test.py:24-25 | the log files belong to no checkpoint series |
| Driver.TerminalEpoch | src/train_and_test.py:175-178 | definition: `epoch` when it equals `epochs`, otherwise `epoch - 1`; `TerminalEpochIsLastWorked` states when that is the last worked epoch |
| Driver.TerminalEpochIsLastWorked | src/train_and_test.py:175-178 | the terminal epoch is the last worked epoch unless early stop was set at `epochs - 1`, where it is `epochs` |
| Driver.LoopEnd | src/train_and_test.py:94-178 | a loop with epochs left raises exactly when `FirstSaveFails` holds; otherwise it works at least one epoch, leaves `epoch` bound and leaves the last worked epoch's latest file |
| Driver.EndedAsIsLoopEnded | src/train_and_test.py:94-178 | a loop that ended as `EndedAs` says, with epochs left, worked at least one epoch and left the latest file of its last worked epoch with the bundle saved then |
| Driver.TerminalLatestFile | src/train_and_test.py:175-180 | from a tidy folder, the terminal epoch's latest file exists exactly when the terminal epoch is the last worked one |
| Driver.Finalized | src/train_and_test.py:180 | definition: the rename of the latest file at the terminal epoch to `checkpoint_last` at the same epoch; `FinalizedMoves` states its effect |
| Driver.FinalizedMoves | src/train_and_test.py:180 | the rename moves the latest file's content to `checkpoint_last` at the same epoch, removes the latest file and keeps all others; without a latest file nothing changes |
| Driver.FinalizeLatestCheckpoint | src/train_and_test.py:180 | renames exactly when the terminal latest file exists |
| Driver.SkippedFoldChangesNothing | src/train_and_test.py:62-64 | a fold reported done runs no epochs: `epoch` keeps its value and only the test log may appear |
| Driver.FinalizeAfterLoop | src/train_and_test.py:175-180 | the rename happens exactly unless early stop was set at `epochs - 1`. Then no latest file is left and `checkpoint_last` of the last worked epoch holds the final state with both evaluations. Otherwise the one latest file survives unrenamed |
| Driver.RenameEmptiesLatest | src/train_and_test.py:180 | renaming the only latest file leaves no latest file |
| Driver.NoRenameKeepsLatest | src/train_and_test.py:180 | when the terminal latest file is missing, finalizing changes no latest file |
| Driver.TrainedFoldFinalizes | src/train_and_test.py:62-185 | a fold resumed from a tidy folder with epochs left succeeds exactly when its first save does not raise, and then ends trained with the terminal epoch and rename `FinishFold` computes |
| Driver.ResumedFoldFailsUnlessImproved | src/train_and_test.py:66-150 | a fold that is not done and resumes with epochs left fails with `SaveFailed` exactly when the resume loaded a file and the first worked epoch does not strictly improve on its best; the folder then holds only what it held and the training log |
| Driver.RunFold | src/train_and_test.py:55-185 | definition of one fold: skipped when reported done; otherwise the training log and `ResumeFold`. `TrainFold` is proved against it |
| Driver.ResumeFold | src/train_and_test.py:66-185 | definition: the resume of `checkpoint_latest`, failing as `Resume` fails, then the loop and `FinishFold`. `ResumeAndTrainFold` is proved against it |
| Driver.FinishFold | src/train_and_test.py:175-185 | definition: a loop that raised is a `SaveFailed` error with the folder as the loop left it; `epoch` never bound is an error; otherwise the terminal epoch, its rename and the test-results log |
| Driver.TrainOpenedFold | src/train_and_test.py:91-185 | the loop, terminal epoch, rename and test log of an opened fold: outcome, `epoch` and folder as `FinishFold` says of `Loop`, the checkpoint's state and evaluations as `Loop` leaves them, its model, optimizer, start epoch and tracking id unchanged |
| Driver.FinalizeFold | src/train_and_test.py:175-185 | after a loop that did not raise: the outcome and folder `FinishFold` gives |
| Driver.ResumeAndTrainFold | src/train_and_test.py:66-185 | a fold that is not done, its training log open, on the folder tree yields what `ResumeFold` says and changes only its folder |
| Driver.TrainFold | src/train_and_test.py:55-185 | one fold on the folder tree yields what `RunFold` says and changes only its folder |
| Driver.SkippedIffDone | src/train_and_test.py:62-64 | a fold without error is skipped exactly when reported done |
| Driver.RunFoldSkipsWhenDone | src/train_and_test.py:62-64 | the fold step skips exactly the folds the status check reports done, whatever their folder and `epoch` |
| Driver.EveryFoldHasOutcome | src/train_and_test.py:50 | without an error every fold in `range(num_cv)` has one outcome |
| Driver.FoldsKeepOtherFolders | src/train_and_test.py:50-197 | folds change no folder other than their own |
| Driver.RootIsNoFoldDir | src/train_and_test.py:200-207 | the save root is no fold's folder |
| Driver.Folds | src/train_and_test.py:50-197 | definition: the fold loop for any per-fold step, each fold on its own folder, stopping at the first error |
| Driver.RunFolds | src/train_and_test.py:50-197 | definition: `Folds` with `RunFold` as the step |
| Driver.FoldSkippedExactlyWhenDone | src/train_and_test.py:50-64 | for any fold step that skips exactly the folds reported done, fold k of the loop is skipped exactly when reported done on its folder as it was before the loop |
| Driver.SkippedExactlyWhenDone | src/train_and_test.py:50-64 | fold k is skipped exactly when the status check reports it done on its folder as it was before the run |
| Driver.AveragesOnlyWhenUnlogged | src/train_and_test.py:200-201 | a completed run computes averages exactly when the averages log was absent before it |
| Driver.TrainAndEvalRun | src/train_and_test.py:50-214 | definition of the whole run: the folds, then, unless one failed, the averaging on the folders they left. `TrainAndEval` is proved against it |
| Driver.TrainAndEval | src/train_and_test.py:50-214 | the whole run on the folder tree yields what `TrainAndEvalRun` says |

## Left out

- Serialisation: `torch.save` and `torch.load` and the contents of state dictionaries are opaque. A file is a whole `Bundle`, or is `Unreadable`.
- Model construction: model constructors, parameter counting and device placement are the `factory` oracle. `get_new_model` is modelled only as the name lookup and its error.
- Foreign calls: training (`Utils.train_one_epoch`), `Eval`, data loaders and dataset preparation are the `train` and `evaluate` oracles.
- Floating point: metrics are Dafny `real` values, and `round` is an uninterpreted oracle.
- Wandb, Logger output, printing, timing and GPU checks are left out. The only effect kept is that opening a log in append mode creates the file.
- `Wandb.init(cv, checkpoint.wandb_id, config)` (line 85) and `Wandb.init(-1, checkpoint.wandb_id, config)` (line 216) read an attribute that `src/checkpoint.py` never sets when tracking is disabled. The Wandb calls are left out, so that AttributeError is not modelled.
- `Utils.check_cv_status` is not part of this model. It is the `cvDone` oracle on the fold's files, and the fold folder is taken as `save_path / ('cv_' + str(cv + 1))`, as line 207 builds it.
- `Checkpoint.finalize_latest_checkpoint` is not part of this model. It is modelled as renaming `checkpoint_latest` at the terminal epoch to `checkpoint_last` at the same epoch when that file exists, and doing nothing otherwise.
- `test_model` and the test-set evaluation (lines 28-35, 137-139, 186-194) are left out. Only the creation of `test_results.log` when it is absent is kept.
- `peak_train_error` printing at lines 169-170 is left out. With `calc_train_error` off, `eval_train` is never bound, so line 170 raises UnboundLocalError when `peak_train_error` is set. The model does not raise there.
- The printing of `eval_test` at lines 171-172 is left out. Only the best branch binds `eval_test` (line 138). With `calc_and_peak_test_error` set, the source raises UnboundLocalError after the latest save at line 150 when no best epoch has run yet in this call of `train_and_eval`, for example when the first fold that is not skipped resumes and its first worked epoch is not best. The model does not stop there.
- Checkpoints.Metrics: a metric vector holds at least nine entries, so the oracles never return a shorter one. The IndexError that a shorter vector raises at `metrics[5]` (`src/checkpoint.py:87`) and at `metrics[8]` (`src/train_and_test.py:114-116`) is not modelled.
- The order `glob` lists files in is the `glob` oracle. The lemmas about which checkpoint is resumed assume that it lists every `.pt` file of the folder exactly once. Without that assumption, a listed name that is not a file is treated as an unreadable match.
- `train_and_test.py` calls `Checkpoint(...)`, `update_eval_valid` and `save_checkpoint` with fewer arguments than `src/checkpoint.py` declares. The model follows the signatures of `src/checkpoint.py`, with the fold index and the configuration passed through.
- `save_checkpoint` raises when an evaluation is None, when an evaluation is a `namedtuple` a resume rebuilt, or when the tracking id is unset. `SaveCheckpoint` models that as writing nothing and returning false. The loop then stops with `SaveFailed`. Of these, only the rebuilt best can occur in the loop: the tracking id is set whenever tracking is on, and both evaluations are set after `update_eval_valid`.
- TrainAndTest.LoopOutcome: tracks the last-best-epoch file's content only for start epochs of 0 or more. Below that the sentinel -1 is also an epoch the loop can work, and deleting "best at -1" may then remove the file just saved.
- Averaging.AverageBest: a negative `num_cv` gives `NoFolds`. In the source the divisions succeed, and the run stops at line 216 because `checkpoint` is unbound. The averages log is created in both.
- Exceptions are `Failure` results that stop the run, with the folders as they were at that point. Python's traceback and any output after it are not modelled.
