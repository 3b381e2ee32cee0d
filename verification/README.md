# ELECTRA training loop bookkeeping, in Dafny

This project models the control logic of `train.py`, the training harness of
an ELECTRA-style pretraining scheme. In that scheme a generator network
predicts masked tokens, and a discriminator network learns from labels
derived from the generator's predictions. All tensor work is delegated to
PyTorch. Three pieces of logic remain, and this project models them:

- **The loop schedule** (`schedule.dfy`, module `Schedule`). `Trainer.train`
  and `AdversarialTrainer.train` share the same bookkeeping over epochs,
  batches and the global step:
  - increment the step after each batch;
  - save when `global_step % save_steps == 0`;
  - stop early once `total_steps < global_step`, saving first;
  - otherwise save once more after the last epoch.

  The work done on each batch is opaque. A run is a `Trace`: a sequence of
  `Batch(k)`, `Save(k)` and `EarlyStop` events, plus an `Outcome`. The
  outcome is either a normal return or one of the two exceptions the
  bookkeeping itself can raise:
  - `ZeroDivision`, from `% save_steps` when `save_steps` is 0;
  - `UnboundLoopIndex`, the `NameError` on `i` in the epoch report when the
    data iterator yields nothing in the first epoch (in a later epoch `i`
    would still be bound from an earlier one).

  `Run` follows the loops as written: `Epochs` over `EpochBatches` over
  `Step`. `Reference` is an independent closed form of the same schedule.
  `RunIsReference` proves that the two agree on every plan. The remaining
  lemmas state the schedule's promises and carry them over to `Run`.
- **Replacement labels** (`labels.dfy`, module `Labels`). The adversarial
  step takes the arg-max of the generator's masked-LM logits over the
  vocabulary axis. It compares the result with `masked_ids`, casts it to
  0/1, and stores it in slot 3 of the batch. Logits are integers here,
  because they are only compared. Ties go to the first index. This is the
  behaviour assumed of `torch.argmax`; the model does not prove it.
- **Checkpoint names** (`checkpoint.dfy`, module `Checkpoint`). Each save
  writes the fixed name `backbone.pt` and the per-step name
  `model_steps_<str(i)>.pt`. `ParseStepFileName` is the inverse of the
  per-step name. `WrittenFiles` lists the files a trace writes.

`config.dfy` (module `TrainConfig`) holds the `Config` record with its
defaults. It also maps a config to a loop `Plan`. `wrappers.dfy` holds
`Option` and `Result`.

The code's comments and its behaviour part ways in places. This model
follows the behaviour:

- `total_steps` is commented as the "total number of steps to train"
  (train.py:27), and line 111 says the run saves and finishes when the
  global step reaches `total_steps`. The test `total_steps < global_step`
  is strict, so a run processes `total_steps + 1` batches when enough are
  available. See `BatchBudget` and `StrictBudgetRunsOneMore`.
- With one epoch of three batches, saving every step and `total_steps` 3,
  the run makes four `save` calls: for steps 1, 2, 3 and 3
  (`ThreeBatchScenario`). They write three distinct per-step files
  (`Checkpoint.ThreeBatchFiles`).
- `AdversarialTrainer` holds a generator and a discriminator, but its
  `save` writes `self.model`, which that class never sets. Here a save is
  only the event `Save(k)` and the names it writes.

The save test uses Dafny's `%`. For a negative `save_steps`, Python's `%`
gives a different remainder, but both are zero on the same steps, so the
test is the same.

The variable that holds the labels is called `is_replaced`. However, its
value is 1 where the generator's top prediction equals the true token.
The model computes what the code computes.

## Model

| member | source | states |
|---|---|---|
| `Schedule.Step` | train.py:101-112 | After one batch the global step is one higher. The bookkeeping exits iff the save interval is zero or the early-termination test fires at the new step, and otherwise continues (mirrored at lines 193, 215-222). |
| `Schedule.EpochBatches` | train.py:93-112 | An epoch's batch loop that runs out of batches leaves the global step advanced by exactly the number of batches it went through. |
| `Schedule.EpochBatchesFollowPrefix` | train.py:93-112 | From any point before the early-termination step, the batch loop emits the next batches' events. It exits exactly when it reaches the step one past `total_steps`, and then ends with the early-stop mark and a save of that step. |
| `Schedule.EpochsFollowReference` | train.py:90-115 | The epoch loop, entered after `e` full epochs, finishes the run as the closed form says, and returns normally. |
| `Schedule.RunIsReference` | train.py:89-115 | For every plan, the loops as written equal the closed-form schedule, including both exception paths (mirrored at lines 175-225). |
| `Schedule.CompletedRun` | train.py:89-115 | A run that raises nothing consists of the events of its processed batches followed by its closing events: the early-stop mark if it stopped early, then the save of the final step. |
| `Schedule.PrefixBatches` | train.py:101 | In the closed form, the first k batches carry global steps 1 to k, in order. |
| `Schedule.PrefixSaves` | train.py:105-106 | In the closed form, the mid-loop saves among the first k batches are exactly the steps from 1 to k that `save_steps` divides, in strictly increasing order, so no step is saved twice inside the loop. |
| `Schedule.RunOutcome` | train.py:105-114 | A run returns normally iff it has no epochs, or its iterator is non-empty and `save_steps` is non-zero. A zero `save_steps` raises right after batch 1. An empty iterator raises at the first epoch's end, before any event. |
| `Schedule.GlobalStepCountsBatches` | train.py:89-101 | The global step starts at 0 and rises by exactly one per batch. The j-th processed batch leaves global step j + 1 (also lines 175, 193). |
| `Schedule.BatchBudget` | train.py:108-112 | A completed run processes all `n_epochs * batches` batches when `total_steps == 0`. Otherwise it processes `min(available, total_steps + 1)` for positive `total_steps`, and `min(available, 1)` for negative `total_steps` (mirrored at lines 218-222). |
| `Schedule.SaveIff` | train.py:105-115 | `save(k)` is called iff k is a positive multiple of `save_steps` no larger than the final step, or k is the final step (mirrored at lines 215-225). |
| `Schedule.EndsWithFinalSave` | train.py:108-115 | Every completed run ends with a save of its final global step. The early-stop branch is taken iff the run stops early. Only that final save follows it, so no batch follows the stop. |
| `Schedule.SavesNondecreasing` | train.py:105-115 | The saved global steps never decrease, on every plan. |
| `Schedule.OnlyFinalSaveRepeats` | train.py:105-115 | In a completed run a step is saved twice only by the last two saves: the periodic save of the final step and the closing save. |
| `Schedule.DoubleFinalSave` | train.py:105-115 | The last two saves carry the same step iff at least one batch ran and the final step is a multiple of `save_steps`. In that case the periodic save and the closing save both fire. |
| `Schedule.ThreeBatchScenario` | train.py:101-115 | One epoch of three batches, saving every step with `total_steps` 3, gives batches 1-3 and saves 1, 2, 3, 3. The run returns without stopping early. |
| `Schedule.StrictBudgetRunsOneMore` | train.py:108-112 | With five batches and `total_steps` 3, a fourth batch runs before the early stop. |
| `Labels.ArgMax` | train.py:199 | The arg-max index holds a largest logit, and every earlier logit is strictly smaller (first-maximum tie-breaking). |
| `Labels.ArgMaxIsTheFirstMax` | train.py:199 | The first-maximum index is unique: an index meets the first-maximum property iff it is the arg-max. |
| `Labels.Label` | train.py:199-200 | One position's label is 0 or 1. It is 1 iff the true id is the first index of the maximal logit. |
| `Labels.ReplacementLabels` | train.py:198-201 | An empty vocabulary axis fails first, and a shape mismatch fails next. On success the labels have the shape of `masked_ids`. Each label is 0/1, and is 1 iff the true id is the first maximal logit at that position. |
| `Labels.Relabel` | train.py:198-202 | The batch given to the discriminator keeps slots 0-2 and 4-6 unchanged. Slot 3 holds the replacement labels of the original masked ids. It fails exactly when the label computation fails. |
| `Labels.LabelOnTies` | train.py:199-200 | A true token scored strictly above all others is labelled 1. A true token tied with an earlier maximum is labelled 0. |
| `Labels.ThreePositionExample` | train.py:198-200 | Logits `[1,5,2]`, `[3,3,0]`, `[0,0,7]` against ids 1, 1, 2 give labels 1, 0, 1. |
| `Checkpoint.Decimal` | train.py:146 | `str(i)` of a non-negative step: non-empty digits without a leading zero, starting with '0' only for 0. |
| `Checkpoint.DecimalRoundTrip` | train.py:146 | Reading back the decimal of n gives n. |
| `Checkpoint.ParseRoundTrip` | train.py:146 | Every canonical decimal string is the decimal of its value. |
| `Checkpoint.StepFileNameRoundTrip` | train.py:145-146 | The per-step checkpoint name of step i parses back to i. |
| `Checkpoint.ParseStepFileNameSound` | train.py:145-146 | Any name that parses to a step is exactly that step's checkpoint name. |
| `Checkpoint.StepFileNameInjective` | train.py:145-146 | Two per-step names are equal iff their steps are equal, so checkpoints of different steps never overwrite each other. |
| `Checkpoint.BackboneIsNoStepFile` | train.py:144-146 | No per-step name equals `backbone.pt`. |
| `Checkpoint.SaveFiles` | train.py:142-146 | `save(i)` writes two files: first `backbone.pt`, the same on every save, then a per-step name that parses back to i (also lines 252-256). |
| `Checkpoint.StepFileWrittenIffSaved` | train.py:142-146 | In any event sequence, the per-step file of step k is written iff `save(k)` is called. |
| `Checkpoint.RunStepFiles` | train.py:105-115 | In a completed run, the per-step file of step k is written by the run iff k is a positive multiple of `save_steps` no larger than the final step, or k is the final step. |
| `Checkpoint.ThreeBatchFiles` | train.py:142-146 | One epoch of three batches, saving every step with `total_steps` 3, writes eight files, and the per-step file of step k is among them iff 1 <= k <= 3. |
| `TrainConfig.DefaultSchedule` | train.py:17-27 | Under the default config and any non-empty iterator, a run completes. It processes `min(10 * batches, 100001)` batches and saves at every hundredth step and at the last. |

## Left out

- Loss functions (`generator_loss`, `discriminator_loss`): floating-point cross-entropy, weighting and means, all done by PyTorch.
- Forward passes, `backward`, optimizer `zero_grad`/`step`/`get_lr`, `.to(device)`, `nn.DataParallel` and `torch.no_grad`: foreign library calls and device plumbing. Each batch's tensor work is an opaque step in the schedule.
- `torch.save`/`torch.load`, `os.path.join` with the save directory, `tqdm`, `print` and the metrics writer: I/O. A save is the event `Save(k)` and the two file names it writes. `load` is not modelled.
- The running loss `loss_sum/(i+1)`: floating point. Only its `NameError` on an empty iterator is modelled, as `UnboundLoopIndex`.
- `Config.from_json`: a thin wrapper over `json.load`.
- The `eval` loops: one caller-supplied callback per batch, with the results collected.
- Defects in the tensor path and in saving. The model assumes each of these is repaired:
  - Line 97 calls `discriminator_loss` without its loss criteria and calls `.mean()` on a tuple. It raises on the first batch of `Trainer.train`, before line 101 advances the step.
  - `self.writer` is never set (line 186). The generator call raises on the first batch of `AdversarialTrainer.train`, before line 193 advances the step.
  - `self.model` is never set on `AdversarialTrainer`, and its `save` reads it at lines 254-255. So every adversarial `save(i)` raises `AttributeError`, the first one at line 216, 221 or 225. The rows that say "mirrored at" lines 175-225 hold only once that attribute is set. `load` with a `model_file` (line 250) and `eval` (line 229) fail the same way.
  - `d_loss.backward()` is never called (lines 204-211). This raises nothing, leaves the discriminator's gradients empty and does not touch the schedule.
- Data iterators whose batch count differs between epochs: a `Plan` has one `batchesPerEpoch` for every epoch, as a re-iterable data loader gives. A one-shot iterator that yields batches only in the first epoch cannot be expressed; in that case later epochs run no batches and raise nothing, because `i` stays bound.
- Exceptions from a failing batch, save or device call: each would end the run at that point, and none is modelled.
- Labels.ReplacementLabels: does not model PyTorch broadcasting. Shapes that are unequal but broadcastable count as `ShapeMismatch`. Logits are integers, so NaN and float ties (`-0.0 == 0.0`) are not modelled. A batch or position axis of length zero is accepted, whatever its vocabulary size.
