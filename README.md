# Domain-adaptation experiment driver: a verified model of its control logic

The script trains an image classifier on the photo domain of a four-domain image benchmark
and optionally adapts it to a target domain with a domain discriminator behind a
gradient-reversal layer. Its own logic is small: a MODE dispatcher that assigns process-wide
flags, two startup checks, the choice of target loader, the epoch/batch training loop that
zeroes gradients, backpropagates one or three losses and steps the optimizer, and the
accuracy counters of the validation and test passes. This project models that logic in Dafny
and proves what it does; the network, the losses and the optimizer are opaque.

Modules (one per component of `code/main.py`):

- `Runtime` (`runtime.dfy`): `Option` (Python's None), `Slot` (a global that may never have been
  assigned; reading an unassigned one is `NameError`), the exceptions that end the script, `Result`.
- `Config` (`config.dfy`): the constants, the MODE table `Preset` and the if/elif chain
  `Dispatch` that builds it, the ALPHA guard `CheckAlpha`, the target choice `SelectTarget`.
- `Batching` (`batching.dfy`): a DataLoader reduced to the sizes of the batches one pass yields,
  with and without `drop_last`.
- `Accuracy` (`accuracy.dfy`): arg-max predictions, hit counting, the `running_corrects` loop and
  the two accuracy divisions.
- `Training` (`training.dfy`): the event trace (`zero_grad`, the three `backward` calls, the
  target draw, `optimizer.step`, `scheduler.step`), the training log (counters and loss/accuracy
  lists), step functions for one batch, one epoch and a whole run, a closed form of a run that
  does not raise, and the class `Trainer` whose loops are proved against the step functions.
- `Script` (`script.dfy`): the script from dispatcher to test accuracy, `ScriptSpec` and the
  method `RunScript`, with one lemma per way a run can end.

Conventions of the model:

- Losses are values of a type parameter `L` supplied per (epoch, batch); the network's scores
  on the validation and test passes are supplied as batches of `Sample(scores, truth)` with
  integer scores. Gradients are not computed; the log counts the backward passes accumulated
  since the last `zero_grad`, and each optimizer step records that count.
- `next(iter(target_dataloader))` takes the first batch of a fresh pass over the target loader,
  so its size is min(dataset size, BATCH_SIZE): the BATCH_SIZE ones vector mismatches only
  when the whole target folder is smaller than BATCH_SIZE (`Batching.FirstBatch`). A size
  mismatch is modelled as the loss call raising (`ShapeMismatch`).
- An unknown MODE assigns no flag, so the guard's read of `USE_DOMAIN_ADAPTATION` on line 200
  raises `NameError` (`Config.StartupOutcome`). Mode 3B assigns only the DA flag and the
  transfer set, so with ALPHA set and an art folder of at least BATCH_SIZE images it raises
  `NameError` at a read of `USE_VALIDATION`: with at least one epoch it trains its first
  epoch and raises on line 302, with none it raises at the report's read on line 359
  (`Script.Mode3BStopsAtValidationRead`). With at least BATCH_SIZE photos, at least one
  epoch and a smaller, non-empty art folder, the first batch instead raises on the ones
  vector (lines 266-267) before line 302 is reached (`Script.ShortTargetStopsFirstBatch`);
  with fewer photos than BATCH_SIZE the photo loader yields no batch and line 302 raises.
- The script is read as run once in a fresh interpreter: a global the dispatcher does not
  assign has never been assigned, so reading it raises `NameError`. In a reused notebook
  session a flag left by an earlier MODE would be read instead (3B after 4A, say, would
  not fail at line 302).
- The closing report reads `USE_VALIDATION` (line 359) and `accuracies_validation[-1]`
  (line 361); both can raise, so both are modelled, although the printing itself is not.

## Model

| member | source | states |
|---|---|---|
| Config.Preset | code/main.py:148-175 | no MODE is the only error; exactly the four presets assign the DA flag and the transfer set; ALPHA is only ever cleared, and only in a non-DA mode; with DA on ALPHA keeps its initial value; validation always targets 'sketch' |
| Config.Dispatch | code/main.py:148-175 | the if/elif chain assigning globals from unassigned produces exactly the table `Preset` |
| Config.CheckAlpha | code/main.py:200-201 | the guard raises the ALPHA error iff DA is true and ALPHA is None; it raises NameError iff the DA flag was never assigned; it passes otherwise |
| Config.SelectTarget | code/main.py:203-208 | cartoon iff transfer set 'cartoon', sketch iff 'sketch', art for everything else including None and 'art painting'; never photo; NameError iff transfer set unassigned |
| Config.DocumentedPresets | code/main.py:148-175 | 3A: all flags false, ALPHA None, no transfer set; 4A: validation only, ALPHA None, 'sketch'; 4C: all three flags true, ALPHA kept, 'sketch'; 3B: DA true, 'art painting', validation and cross-validation unassigned |
| Config.StartupOutcome | code/main.py:148-208 | no MODE raises first; an unknown MODE raises NameError at the guard; for a preset the guard fires iff the mode is 3B or 4C and ALPHA is None; after the guard passes a target is always chosen |
| Config.PresetTargets | code/main.py:200-208 | with ALPHA 0.25 (line 61) the guard never fires for a preset; 3A and 3B target art, 4A and 4C target sketch |
| Batching.SizesFrom | code/main.py:132-135 | every batch is non-empty and at most BATCH_SIZE; all but the last are full; with drop_last all are full |
| Batching.BatchSizes | code/main.py:132-135 | one batch size per element of `len(loader)`, which is `NumBatches`: n / batch_size with drop_last, rounded up without |
| Batching.BatchSizesProperties | code/main.py:132-135 | with drop_last every batch is full; without it the batches add up to the whole dataset; a pass never holds more than the dataset nor more than `len(loader) * batch_size` |
| Batching.FirstBatch | code/main.py:246 | a fresh pass of a non-dropping loader has a first batch iff the dataset is non-empty, and it holds min(dataset size, BATCH_SIZE) samples |
| Accuracy.ArgMax | code/main.py:312 | the prediction is a valid class index holding the largest score, and no earlier index holds an equal one |
| Accuracy.BatchCorrect | code/main.py:313 | the hits of a batch are at most its size; all hit iff the count is the size; none hit iff it is zero |
| Accuracy.Correct | code/main.py:306-313 | the hits summed over batches never exceed the number of samples |
| Accuracy.CountCorrect | code/main.py:306-351 | the `running_corrects` loop, used for the validation pass (lines 306-313, run by `Trainer.FinishEpoch`) and the test pass (lines 339-351), returns exactly the summed hits, hence at most the number of samples |
| Accuracy.ShapedSamples | code/main.py:133-135 | a full pass of a loader holds at most `len(loader) * batch_size` samples, and exactly the dataset for the non-dropping loaders |
| Accuracy.ValidationAccuracy | code/main.py:316 | raises ZeroDivision iff the loader has no batches; otherwise the accuracy times `len(loader) * batch_size` is the hit count |
| Accuracy.TestAccuracy | code/main.py:354 | raises ZeroDivision iff the art folder is empty; otherwise the accuracy times the art folder's size is the hit count |
| Accuracy.ValidationAccuracyInRange | code/main.py:306-316 | the validation accuracy of a pass over the target loader lies in [0, 1] |
| Accuracy.TestAccuracyExact | code/main.py:339-354 | over the art loader the samples are exactly the art folder, and the test accuracy is exactly hits / samples, in [0, 1] |
| Training.Trainer.constructor | code/main.py:212-217 | the counter starts at 0 and all lists and the trace are empty |
| Training.Trainer.Classify | code/main.py:231-240 | zero_grad resets the accumulated passes, the classifier loss is appended and its backward counted; the new state is `Classified` of the old one |
| Training.Trainer.Adapt | code/main.py:246-271 | with DA: StopIteration on an empty target loader, else a draw; ShapeMismatch when the zeros or ones vector does not fit; otherwise both discriminator losses appended and backpropagated; state and failure equal `Adapted` of the old state |
| Training.Trainer.TrainBatch | code/main.py:227-273 | the log after one source batch is the one-batch step: zero_grad, classifier loss appended and backpropagated, and with DA a target draw, the two discriminator losses appended and backpropagated, then one step applying the accumulated passes; or the exception and the log at the point it was raised; state and failure equal `BatchStep` of the old state |
| Training.Trainer.TrainBatches | code/main.py:227-273 | the inner loop leaves the log of all source batches of the epoch, stopping at the first exception; state and failure equal `RunBatches` over all source batches |
| Training.Trainer.FinishEpoch | code/main.py:301-322 | reads USE_VALIDATION (NameError if unset), appends one validation accuracy when it is true, then increments `current_step` and steps the scheduler; state and failure equal `EpochTail` of the old state |
| Training.Trainer.RunEpoch | code/main.py:220-322 | one outer-loop iteration leaves exactly the one-epoch step's log (`EpochStep`: `RunBatches`, then `EpochTail` unless a batch raised) |
| Training.Trainer.Train | code/main.py:212-322 | the training loop from empty lists leaves exactly the log of NUM_EPOCHS epochs (`Epochs`), stopping at the first exception |
| Training.BatchStepClean | code/main.py:231-273 | a batch that does not raise appends one classification loss, with DA one source and one target loss, leaves `1` or `3` accumulated passes, and adds exactly the batch's event sequence |
| Training.RunBatchesClean | code/main.py:227-273 | when no batch raises, an epoch's batches append the losses in batch order and repeat the batch events once per batch |
| Training.EpochsClean | code/main.py:220-322 | a run in which nothing raises has exactly the closed-form log |
| Training.FailureIffUnclean | code/main.py:220-322 | a run raises iff it has an epoch and some batch or the end of an epoch raises; it then raises in the first epoch, with `current_step` 0 and no validation accuracy |
| Training.CleanRunLists | code/main.py:220-322 | after E epochs over B batches: `current_step` is E; E*B classification losses; as many source as target losses, E*B with DA and 0 without; one validation accuracy per epoch when validation is on |
| Training.CleanRunLossOrder | code/main.py:227-236 | in a clean run the classification loss of batch i of epoch e is entry e*B+i: losses are kept epoch after epoch in batch order |
| Training.CleanRunCounts | code/main.py:227-322 | a clean run has E*B `zero_grad` calls and E*B optimizer steps, E*B target draws with DA and none without, and E scheduler steps |
| Training.CleanRunSteps | code/main.py:231-273 | every optimizer step of a clean run applies exactly its own batch's backward passes: 1, or 3 with DA |
| Training.BatchTraceCount | code/main.py:231-273 | one batch does one `zero_grad`, one classifier backward, with DA one draw and the two discriminator backwards, and one optimizer step |
| Training.EpochsNoAdaptation | code/main.py:243-271 | with DA off, whatever happens, the target loader is never drawn from, no discriminator backward runs and both discriminator loss lists stay empty |
| Script.RunScript | code/main.py:148-362 | the script run by dispatcher, guard, target choice, Trainer, counting loop and report reads ends exactly as `ScriptSpec` |
| Script.NoModeStopsBeforeTraining | code/main.py:148-149 | no MODE raises with an empty log: no training step happens |
| Script.UnknownModeStopsAtGuard | code/main.py:148-201 | an unknown MODE raises NameError for the DA flag with an empty log |
| Script.MissingAlphaStopsAtGuard | code/main.py:200-201 | 3B or 4C with ALPHA None raise the ALPHA error with an empty log |
| Script.BatchesCleanFor | code/main.py:246-267 | with DA on and a target folder of at least BATCH_SIZE images no batch raises: the zeros vector fits every photo batch and the ones vector every drawn target batch |
| Script.Mode3BStopsAtValidationRead | code/main.py:157-302 | 3B with ALPHA set and an art folder of at least BATCH_SIZE images raises NameError for USE_VALIDATION; with epochs it first trains every photo batch with all three losses, with `current_step` still 0 |
| Script.ShortTargetStopsFirstBatch | code/main.py:246-267 | in 3B or 4C with ALPHA set, a full photo batch and a target folder smaller than BATCH_SIZE, the first batch raises: ShapeMismatch on the ones vector for a non-empty folder, and for an empty one the StopIteration that line 246 would raise if reached (see Left out: empty image folders), with one classification loss and `current_step` 0 |
| Script.NoEpochsThenIndexError | code/main.py:359-361 | 4A, or 4C with ALPHA set, run for zero epochs with a non-empty art folder ends in IndexError at the report's `accuracies_validation[-1]`, with an empty log |
| Script.PresetCompletes | code/main.py:148-354 | 3A with a non-empty art folder, 4A with non-empty art and sketch folders and an epoch, and 4C with ALPHA set, non-empty art and sketch folders, an epoch, and a sketch folder of at least BATCH_SIZE images unless the photo loader has no batch, all run to completion, with the expected target, counter, list lengths and a test accuracy exactly hits / art images in [0, 1] |
| Script.DefaultExperiment | code/main.py:55-61 | with the compiled-in MODE 4C, ALPHA 0.25, 30 epochs and batches of 256, a non-empty art folder and at least 256 sketch images, the run completes, targets sketch and records 30 accuracies and equally many losses of each kind |

## Left out

- Cloning repositories and copying folders (lines 12-15, 84-85): shell commands, I/O.
- Building the image datasets and transforms (lines 72-124): library behaviour; only each
  folder's image count enters the model.
- Empty image folders: `ImageFolder` (lines 94-97) and a shuffling DataLoader (lines 132-135)
  both raise on them during construction, but the model admits a folder size of 0. The
  StopIteration and ZeroDivision outcomes it then gives (`Training.Trainer.Adapt`,
  `Accuracy.ValidationAccuracy`, `Accuracy.TestAccuracy`, the empty-folder case of
  `Script.ShortTargetStopsFirstBatch`) are what lines 246, 316 and 354 would do if reached,
  not what the script does.
- DataLoader shuffling and worker processes (lines 132-135): they decide which images form a
  batch, not how many; only batch sizes are modelled, and scored batches are inputs.
- `dann_net`, the gradient-reversal layer, forward passes, `CrossEntropyLoss`, autograd, SGD
  with momentum and weight decay, `StepLR` and learning rates (lines 185-198, 322): foreign
  calls and floating point. Loss values are opaque inputs, gradients are counted, the
  scheduler step is an event, and ALPHA is not passed anywhere beyond the guard.
- The training-set accuracy block (lines 276-299): `EVAL_ACCURACY_ON_TRAINING` is reassigned
  to False on line 178, so the block never runs.
- The commented-out exponential ALPHA schedule (lines 249-252): dead code.
- `CROSS_DOMAIN_VALIDATION`: assigned by the dispatcher and never read; it is carried in the
  flags only.
- `net.train(...)`, device placement, `cudnn.benchmark`, `tqdm`, every `print` and the plots
  (lines 127, 146, 222-224, 304, 324-332, 356-367), apart from the two reads on lines 359 and
  361 that can raise and are modelled: no effect on the modelled state.
- Scores are integers and accuracies exact reals: floating-point rounding, NaN scores and
  arg-max ties under non-deterministic kernels are not modelled; ties go to the first index.
- Accuracy.ValidationAccuracyInRange: proves only the [0, 1] range; the value is below the
  true hit rate when the last target batch is short, because the denominator counts full
  batches, and that gap is not quantified.
