# Learner bookkeeping of the AlphaStar-mini actor-learner loop

This project models the learner worker `LearnerProcess` in
`alphastarmini/core/rl/learner_process.py` and proves properties of the model. Actors push
finished trajectories into three pools held by the learner: ordinary, final (end-of-game) and
win. The learner has two ways to draw a sample batch from those pools:

- **uniform**: the oldest `count_of_batches * batch_size` ordinary trajectories;
- **mixed (outcome-balanced)**: a win quota and a final quota taken from shuffled class pools, with the rest of the budget taken from the ordinary pool.

An update draws a uniform sample and trains on it. Each of `num_epochs` epochs runs one
external training step per contiguous mini-batch of `batch_size` trajectories, and each
finished step advances the agent's step counter by `batch_size * sequence_length`. When all
steps have finished, the update writes a checkpoint. A time-bounded run loop starts an update
whenever the ordinary pool reaches
`buffer_size * count_of_batches * batch_size` trajectories. It stops at the first exception
and always clears `is_running` on the way out.

Layout:

- `sampling.dfy` (module `Sampling`) holds the pure part:
  - Python's clamping slices;
  - the quota arithmetic;
  - `UniformDraw` and `MixedDraw`, value-level specifications of the two samplers. Each returns the batch, or the failed length assertion, together with the pools afterwards;
  - the gate lemma.
- `minibatches.dfy` (module `MiniBatches`) covers how a sample is cut into mini-batches and visited epoch after epoch. It proves that the mini-batches partition the sample.
- `learner.dfy` (module `LearnerProcess`) holds the imperative learner:
  - class `Learner` has the pools as `seq` fields that its methods reassign, and class `Agent` holds the step counter;
  - the methods are proved against the specification functions above.

Decisions worth knowing:

- **Quotas follow the code.** `split_ratio = [0.7, 0.2, 0.1]` at line 137 reads as proportional
  quotas, but `min(1, int(n * ratio))` at lines 138-139 caps each quota at 1, and the model
  follows the code. Each quota is therefore 0 or 1:
  - the win quota is 1 exactly when the sample size is at least 10;
  - the final quota is 1 exactly when the sample size is at least 5.

  The float products `n * 0.1` and `n * 0.2` reach 1.0 exactly at those thresholds, so the model
  uses integer division.
- **The length assertion is an error value.** `assert len(trajectories) == sample_size` (lines
  125 and 178) becomes the error result `Err(InsufficientData)`. The pool changes that happened
  before the assertion are kept.
- **The training step may fail.** The loss, backward pass and optimizer step are one external
  step, `LossAndOptimizerStep`, which either finishes or raises (`Err(TrainingStepFailed)`).
- **Shuffling is an arbitrary permutation.** `random.shuffle` becomes `Shuffle`, which returns
  some permutation of its input.
- **The clock is an input.** The wall clock is a sequence of readings passed to `Run`. The first
  reading is the start time, and the next one is read before each iteration.
- **The checkpoint write may fail.** `torch.save` (line 228) becomes `SaveCheckpoint`, which
  either succeeds or raises (`Err(CheckpointFailed)`). A successful write is counted in
  `savedCheckpoints`; a failed one leaves the counter as it was, after every step has already
  advanced the step counter.
- **Runs are traced.** `Run` returns, as ghost outputs, the state before each iteration and
  after the last (`trace`) and what each iteration raised (`history`). Each consecutive pair of
  states is related by `IterationEffect`, the effect of one iteration of the loop body. The lemmas
  `TraceExtends` and `TracedStep` only fold and unfold that definition; they are proof helpers and
  model no source lines of their own.
- **Uniform sampling only.** `update_parameters` calls the uniform sampler; the call to the mixed
  sampler is commented out at line 194. The mixed sampler is modelled as an operation of its own.

## Model

| member | source | states |
|---|---|---|
| Sampling.SlicePrefix | alphastarmini/core/rl/learner_process.py:121 | `s[:k]` never fails: its length is `min(k, len(s))` and it is a prefix of `s` |
| Sampling.SliceFrom | alphastarmini/core/rl/learner_process.py:129 | `s[k:]` is what follows `s[:k]`: the two concatenate back to `s`, and its length is `len(s) - min(k, len(s))` |
| Sampling.WinQuota | alphastarmini/core/rl/learner_process.py:139 | the win quota `min(1, int(n * 0.1))` is at most 1, and it is 1 if and only if the sample size is at least 10 |
| Sampling.FinalQuota | alphastarmini/core/rl/learner_process.py:138 | the final quota `min(1, int(n * 0.2))` is at most 1, and it is 1 if and only if the sample size is at least 5 |
| Sampling.Drawn | alphastarmini/core/rl/learner_process.py:148-151 | a class pool contributes at most its quota and at most its length; an empty pool contributes nothing; a pool at least as long as the quota contributes exactly the quota |
| Sampling.ReducedSampleSize | alphastarmini/core/rl/learner_process.py:147-164 | `reduce_sample_size` is the sample size minus 1 for a non-empty win pool when the size is at least 10, and minus 1 for a non-empty final pool when the size is at least 5; so it lies between `sample_size - 2` and `sample_size` and is never negative |
| Sampling.UniformDraw | alphastarmini/core/rl/learner_process.py:115-131 | uniform sampling succeeds if and only if the pool holds at least `sample_size` trajectories. On success, the batch has exactly `sample_size` trajectories, and batch followed by the new pool is the old pool (first elements taken, order kept, nothing lost). On failure, the assertion error is returned and the pool is unchanged |
| Sampling.Retained | alphastarmini/core/rl/learner_process.py:156-158 | a class pool longer than its threshold loses exactly its first `quota` elements; otherwise it keeps everything, including what was drawn |
| Sampling.MixedDraw | alphastarmini/core/rl/learner_process.py:133-184 | on shuffled pools: success if and only if the ordinary pool covers `reduce_sample_size`. The batch then has exactly `sample_size` trajectories: the win part, then the final part, then the first `reduce_sample_size` ordinary ones, and the ordinary pool loses exactly those. On failure the assertion error is returned and the ordinary pool is unchanged. In both cases the win and final pools are trimmed as `Retained` says (thresholds 128 and 64) |
| Sampling.MixedWithoutClassPoolsIsUniform | alphastarmini/core/rl/learner_process.py:133-184 | with the win and final pools empty, mixed sampling returns the same batch or the same assertion failure as uniform sampling (lines 115-131), and leaves the same ordinary pool |
| Sampling.GateCoversSample | alphastarmini/core/rl/learner_process.py:248 | with `buffer_size >= 1`, a pool that passes the run loop's gate holds at least `count_of_batches * batch_size` trajectories |
| MiniBatches.MiniBatch | alphastarmini/core/rl/learner_process.py:205 | the mini-batch `trajectories[batch_id * batch_size:(batch_id + 1) * batch_size]`, with Python's clamping slice; it has no contract of its own, and `MiniBatchIsBlock` states what it is for a full sample |
| MiniBatches.EpochBatches | alphastarmini/core/rl/learner_process.py:204-205 | the mini-batches of one epoch, in the order the inner loop visits them: exactly `count_of_batches` of them, entry `b` being mini-batch `b` |
| MiniBatches.MiniBatchIsBlock | alphastarmini/core/rl/learner_process.py:205 | for a sample of exactly `count_of_batches * batch_size` trajectories, no slice is clamped: mini-batch `b` is the block `[b * batch_size, (b + 1) * batch_size)` and holds exactly `batch_size` trajectories |
| MiniBatches.EpochPartitionsSample | alphastarmini/core/rl/learner_process.py:204-205 | the mini-batches of one epoch partition the sample: each holds exactly `batch_size` trajectories, and concatenated in order they are the sample |
| MiniBatches.EpochHeadSized | alphastarmini/core/rl/learner_process.py:204-205 | the first `k` mini-batches an epoch hands over each hold `batch_size` trajectories and are a prefix of the full epoch |
| MiniBatches.RepeatLength | alphastarmini/core/rl/learner_process.py:202-204 | `num_epochs` passes over `count_of_batches` mini-batches make `num_epochs * count_of_batches` training steps |
| MiniBatches.RepeatPrefix | alphastarmini/core/rl/learner_process.py:202-204 | `e` full epochs followed by part of the next one form a prefix of the full schedule |
| MiniBatches.EpochScheduled | alphastarmini/core/rl/learner_process.py:202-205 | after `e` full epochs, appending what one more epoch handed over stays within the schedule; a complete epoch makes exactly `e + 1` epochs; mini-batch sizes are preserved |
| LearnerProcess.Shuffle | alphastarmini/core/rl/learner_process.py:149 | `random.shuffle` yields a permutation: same multiset and same length |
| LearnerProcess.LossAndOptimizerStep | alphastarmini/core/rl/learner_process.py:209-220 | the external loss, backward pass and optimizer step on one mini-batch: it may raise, with no further contract; the ghost `handed` is the mini-batch it received, which the training loop records |
| LearnerProcess.SaveCheckpoint | alphastarmini/core/rl/learner_process.py:228 | `torch.save` of the model's parameters: it may raise, and has no contract |
| LearnerProcess.DrawFromClassPool | alphastarmini/core/rl/learner_process.py:148-170 | the block run on the win pool and on the final pool. The part drawn is the head of the shuffled pool, of length `Drawn(len, quota)`, and the pool afterwards is `Retained` of the shuffled pool. The shuffled pool is a permutation of the old one. Above the threshold the drawn part and the new pool together hold exactly the old pool's trajectories; at or below it the pool keeps all of them and the drawn part is a sub-multiset of them |
| LearnerProcess.Agent.constructor | alphastarmini/core/rl/learner_process.py:65 | the agent whose step counter the learner advances starts from the given count |
| LearnerProcess.Learner.constructor | alphastarmini/core/rl/learner_process.py:56-97 | every configuration field and pool holds the given value; `is_running` is false and no checkpoint has been written |
| LearnerProcess.Learner.SampleSize | alphastarmini/core/rl/learner_process.py:117 | `count_of_batches * batch_size`, the size of one sample batch; no contract of its own |
| LearnerProcess.Learner.StepIncrement | alphastarmini/core/rl/learner_process.py:223 | `AHP.batch_size * AHP.sequence_length`, how far the step counter advances per finished training step; no contract of its own |
| LearnerProcess.Learner.Threshold | alphastarmini/core/rl/learner_process.py:248 | the run loop's gate `buffer_size * count_of_batches * batch_size`; no contract of its own, `GateCoversSample` states that with `buffer_size >= 1` it covers a sample |
| LearnerProcess.Learner.SendTrajectory | alphastarmini/core/rl/learner_process.py:106-107 | appends the trajectory to the tail of the ordinary pool; the frame guarantees nothing else changes |
| LearnerProcess.Learner.SendFinalTrajectory | alphastarmini/core/rl/learner_process.py:109-110 | appends the trajectory to the tail of the final pool; nothing else changes |
| LearnerProcess.Learner.SendWinTrajectory | alphastarmini/core/rl/learner_process.py:112-113 | appends the trajectory to the tail of the win pool; nothing else changes |
| LearnerProcess.Learner.GetNormalTrajectories | alphastarmini/core/rl/learner_process.py:115-131 | the result and the new ordinary pool are exactly `UniformDraw` of the old pool with `count_of_batches * batch_size`; the other pools are untouched |
| LearnerProcess.Learner.GetMixedTrajectories | alphastarmini/core/rl/learner_process.py:133-184 | there are permutations of the three pools (the ordinary one is the old pool itself when random sampling is off) on which the result and all three new pools are exactly `MixedDraw` |
| LearnerProcess.Learner.TakeOrdinary | alphastarmini/core/rl/learner_process.py:172-182 | the ordinary part of the mixed sampler. If the pool covers the remaining budget, the batch is the class parts followed by the pool's head and the pool loses that head. Otherwise the assertion error is returned and the pool is unchanged |
| LearnerProcess.Learner.UpdateParameters | alphastarmini/core/rl/learner_process.py:186-231 | with training disabled, a no-op (no pool, counter or checkpoint change). A too-small ordinary pool, and only that, gives the assertion error with nothing changed. Otherwise the pool loses exactly its first `count_of_batches * batch_size` trajectories, the counter grows by `batch_size * sequence_length` per finished step and never beyond a full update, and the mini-batches fed are a prefix of `num_epochs` passes over that sample's partition, each of `batch_size` trajectories. Exactly one of three outcomes follows: all `num_epochs * count_of_batches` steps ran, the counter grew by `num_epochs * count_of_batches * batch_size * sequence_length` and one checkpoint was written; or a step raised, fewer steps finished and no checkpoint was written; or every step finished but `torch.save` raised, and no checkpoint was counted |
| LearnerProcess.Learner.TrainEpochs | alphastarmini/core/rl/learner_process.py:202-223 | the epoch loop: the step counter grows by `batch_size * sequence_length` per finished step. All `num_epochs * count_of_batches` steps finish, or the loop stops at the first one that raises. What was fed is a prefix of the full epoch schedule, in mini-batches of `batch_size` |
| LearnerProcess.Learner.TrainEpoch | alphastarmini/core/rl/learner_process.py:204-223 | one epoch: either every mini-batch of the epoch is trained in order, or the first `trained` are trained and the next one raises. The counter grows by `batch_size * sequence_length` per trained mini-batch |
| LearnerProcess.Learner.RunIteration | alphastarmini/core/rl/learner_process.py:243-253 | the effect of one loop iteration: below the gate `buffer_size * count_of_batches * batch_size`, or with training disabled, nothing changes and nothing is raised. At or above the gate the pool loses exactly its first `count_of_batches * batch_size` trajectories (40 trajectories with a gate and sample of 32 leave the last 8) and the counter advances by at most one full update. Then either nothing is raised, the counter advanced by a full update and one checkpoint was written; or a training step raised and no checkpoint was written; or the checkpoint write raised after a full update. With `buffer_size >= 1` the sampler's assertion cannot be what is raised |
| LearnerProcess.StepsOfUpdate | alphastarmini/core/rl/learner_process.py:202-223 | `completed` finished steps, out of `num_epochs * count_of_batches`, advance the counter by `completed * batch_size * sequence_length`, which is at most what a full update adds |
| LearnerProcess.Learner.Run | alphastarmini/core/rl/learner_process.py:237-264 | `is_running` is false on return. Every iteration started before the deadline, and the loop ends when the deadline has passed or at the first exception: every iteration before the last raised nothing, and the returned failure is what the last one raised. The returned trace starts at the state on entry, ends at the state on return, and each iteration's states are related by `RunIteration`'s effect. With no iteration (the deadline already passed at the first check of the loop condition) nothing changes. With `buffer_size >= 1` the failure is never the sampler's assertion. With training disabled nothing changes. The ordinary pool only ever loses a head, and the step and checkpoint counters never decrease |
| LearnerProcess.Learner.IterationProgress | alphastarmini/core/rl/learner_process.py:243-253 | one iteration only removes a head of the ordinary pool and never decreases the step or checkpoint counters; with training disabled it changes nothing and raises nothing |
| LearnerProcess.Learner.TracedProgress | alphastarmini/core/rl/learner_process.py:241-253 | across a whole run the ordinary pool only loses a head and the counters never decrease; with training disabled the final state is the initial one and no iteration raised |

## Left out

- The PyTorch model, `loss_function`, `loss.backward()`, `optimizer.step()` and `zero_grad` (lines 209-220) are foreign numerical code. They are reduced to one step that succeeds or raises. The three loss flags `use_opponent_state`, `no_replay_learn` and `only_update_baseline`, the learning rate and the Adam settings only feed that code, so they are not fields of the model.
- `get_parameters` (lines 103-104) only forwards to the neural model.
- The module-level `MODEL_PATH`/`SAVE_PATH` set-up (lines 37-41) and the file `torch.save` writes (line 228) are file I/O. The write is modelled only by its outcome, success or `Err(CheckpointFailed)`, and by the `savedCheckpoints` counter.
- The constructor's default arguments (lines 56-62) are not modelled: `max_time_for_training=60 * 3`, `is_training=True`, `num_epochs=THP.num_epochs`, `count_of_batches=1`, `buffer_size=10`, `use_random_sample=False`, `lr=THP.learning_rate`. The model's constructor takes every value as an argument. `THP` is not part of this model.
- The `SummaryWriter` metrics (lines 99-101, 216, 222) and every `print` are output only.
- The GPU and cudnn set-up (lines 43-50, 67-69) is device configuration.
- `multiprocessing.Process`, the daemon flag and `start()` (lines 82-83, 233-234) are concurrency. The sharing of the pools with actor processes is left out too: the pools are sequences owned by the learner.
- `sleep(0.05)` (line 253) is left out, and the wall clock is an input sequence of readings.
- The outer `try`/`except` of `run` (lines 260-261) has nothing to catch in the model, because reading the clock cannot fail here. `is_running` is still cleared on every exit.
- The constructor's pool arguments default to `None` in the source. The model requires actual sequences, because with `None` every pool operation raises.
- Integer configuration values are natural numbers in the model. Negative counts, which Python's `range` and slicing would accept, are not modelled.
- LearnerProcess.Learner.Run: requires that the last clock reading is past the deadline, so that the loop ends. The source loops for as long as the clock keeps reporting times before the deadline.
- LearnerProcess.Learner.UpdateParameters: the `train()` and `eval()` mode switches (lines 199 and 230) are assumed not to raise. They only toggle batch-norm and dropout behaviour of the foreign model, so the contract has no error case for them.
- LearnerProcess.Learner.UpdateParameters: `fed` (the mini-batches handed to the external step) is a ghost record. The batches are computed, but nothing else in the model consumes them.
