/**
  The learner worker of the actor-learner loop: it owns the three trajectory
  pools that the actors append to, draws sample batches from them, runs the
  per-mini-batch training steps and drives everything from a time-bounded run
  loop. The neural model, the loss and the optimizer are one external step
  that either succeeds or raises.
 */
module LearnerProcess {
  import opened Sampling
  import opened MiniBatches

  /** `random.shuffle`: some permutation of `s`, chosen by the random generator. */
  method Shuffle<T(==)>(s: seq<T>) returns (p: seq<T>)
    ensures multiset(p) == multiset(s)
    ensures |p| == |s|
  {
    assert multiset(s) == multiset(s);
    p :| multiset(p) == multiset(s);
    assert |p| == |multiset(p)| == |multiset(s)| == |s|;
  }

  /** The external `loss_function`, `loss.backward()` and `optimizer.step()` on
      one mini-batch: it may raise (`ok == false`) for reasons outside this model.
      `handed` records the mini-batch the external code received. */
  method LossAndOptimizerStep<T>(miniBatch: seq<T>) returns (ok: bool, ghost handed: seq<T>)
    ensures handed == miniBatch
  {
    handed := miniBatch;
    ok := *;
  }

  /** The block `get_mixed_trajectories` runs on the win pool and again on the
      final pool: when the pool is non-empty, shuffle it, take up to `quota`
      from its head, and drop that head only when the pool is longer than
      `threshold`. */
  method DrawFromClassPool<T(==)>(pool: seq<T>, quota: nat, threshold: nat)
    returns (part: seq<T>, ghost shuffled: seq<T>, pool': seq<T>)
    requires quota <= 1
    ensures multiset(shuffled) == multiset(pool) && |shuffled| == |pool|
    ensures part == shuffled[..Drawn(|pool|, quota)]
    ensures pool' == Retained(shuffled, quota, threshold)
    ensures |part| == Drawn(|pool|, quota)
    ensures |pool| > threshold ==> multiset(part) + multiset(pool') == multiset(pool)
    ensures |pool| <= threshold ==> multiset(pool') == multiset(pool) && multiset(part) <= multiset(pool)
  {
    shuffled, pool' := pool, pool;
    part := [];
    if |pool'| > 0 {
      pool' := Shuffle(pool');
      shuffled := pool';
      part := SlicePrefix(pool', quota);
      assert shuffled == part + shuffled[|part|..];
      if |pool'| > threshold {
        pool' := SliceFrom(pool', quota);
      }
    }
  }

  /** `torch.save` of the model's parameters: it may raise (`ok == false`),
      for instance on a file-system error. */
  method SaveCheckpoint() returns (ok: bool)
  {
    ok := *;
  }

  /** The step-counter arithmetic of one update: `completed` steps of
      `batchSize * sequenceLength` each, out of `numEpochs * countOfBatches`,
      advance the counter by `completed * batchSize * sequenceLength`, and by
      no more than the full update does. */
  lemma StepsOfUpdate(completed: nat, numEpochs: nat, countOfBatches: nat, batchSize: nat, sequenceLength: nat)
    requires completed <= Multiple(numEpochs, countOfBatches)
    ensures Multiple(numEpochs, countOfBatches) == numEpochs * countOfBatches
    ensures Multiple(completed, batchSize * sequenceLength) == completed * (batchSize * sequenceLength)
    ensures Multiple(completed, batchSize * sequenceLength)
         <= Multiple(numEpochs * countOfBatches, batchSize * sequenceLength)
  {
    MultipleIsProduct(numEpochs, countOfBatches);
    MultipleIsProduct(completed, batchSize * sequenceLength);
    MultipleMonotone(completed, numEpochs * countOfBatches, batchSize * sequenceLength);
  }

  /** The part of the learner's state one run-loop iteration can change. */
  datatype Snapshot<T> = Snapshot(pool: seq<T>, steps: nat, checkpoints: nat)

  /** The part of the agent the learner updates: its training-step counter. */
  class Agent {
    var steps: nat

    constructor (steps: nat)
      ensures this.steps == steps
    {
      this.steps := steps;
    }
  }

  class Learner<T(==)> {
    const agent: Agent

    // hyper-parameters
    const batchSize: nat
    const sequenceLength: nat

    // construction-time configuration
    const maxTimeForTraining: real
    const isRlTraining: bool
    const numEpochs: nat
    const countOfBatches: nat
    const bufferSize: nat
    const useRandomSample: bool

    // the three trajectory pools
    var trajectories: seq<T>
    var finalTrajectories: seq<T>
    var winTrajectories: seq<T>

    var isRunning: bool
    /** How many `torch.save` calls have succeeded. Every call writes the same
        file, so each successful write replaces the previous checkpoint. */
    var savedCheckpoints: nat

    constructor (agent: Agent, batchSize: nat, sequenceLength: nat,
                 maxTimeForTraining: real, isRlTraining: bool, numEpochs: nat,
                 countOfBatches: nat, bufferSize: nat, useRandomSample: bool,
                 trajectories: seq<T>, finalTrajectories: seq<T>, winTrajectories: seq<T>)
      ensures this.agent == agent
      ensures this.batchSize == batchSize && this.sequenceLength == sequenceLength
      ensures this.maxTimeForTraining == maxTimeForTraining && this.isRlTraining == isRlTraining
      ensures this.numEpochs == numEpochs && this.countOfBatches == countOfBatches
      ensures this.bufferSize == bufferSize && this.useRandomSample == useRandomSample
      ensures this.trajectories == trajectories
      ensures this.finalTrajectories == finalTrajectories
      ensures this.winTrajectories == winTrajectories
      ensures !isRunning && savedCheckpoints == 0
    {
      this.agent := agent;
      this.batchSize, this.sequenceLength := batchSize, sequenceLength;
      this.maxTimeForTraining, this.isRlTraining := maxTimeForTraining, isRlTraining;
      this.numEpochs, this.countOfBatches := numEpochs, countOfBatches;
      this.bufferSize, this.useRandomSample := bufferSize, useRandomSample;
      this.trajectories := trajectories;
      this.finalTrajectories := finalTrajectories;
      this.winTrajectories := winTrajectories;
      isRunning := false;
      savedCheckpoints := 0;
    }

    /** `count_of_batches * batch_size`: the size of one sample batch. */
    function SampleSize(): nat
    {
      countOfBatches * batchSize
    }

    /** `AHP.batch_size * AHP.sequence_length`: how far the step counter
        advances per trained mini-batch. */
    function StepIncrement(): nat
    {
      batchSize * sequenceLength
    }

    /** The run loop's gate: `buffer_size * count_of_batches * batch_size`. */
    function Threshold(): nat
    {
      bufferSize * countOfBatches * batchSize
    }

    /** How far one complete update advances the step counter:
        `num_epochs * count_of_batches` steps of `batch_size * sequence_length`
        each, which is their product (lemma MultipleIsProduct). */
    function StepsPerUpdate(): nat
    {
      Multiple(numEpochs * countOfBatches, StepIncrement())
    }

    function CurrentPools(): Pools<T>
      reads this
    {
      Pools(trajectories, finalTrajectories, winTrajectories)
    }

    ghost function State(): Snapshot<T>
      reads this`trajectories, agent`steps, this`savedCheckpoints
    {
      Snapshot(trajectories, agent.steps, savedCheckpoints)
    }

    /** What one call of `update_parameters` does, starting from `before`:
        with training disabled, nothing; with fewer than `SampleSize()`
        trajectories, nothing but the sampler's assertion; otherwise it consumes
        the head of the pool, and trains `completed` steps on the mini-batches
        `fed` of that sample, in schedule order, each of `batchSize`
        trajectories, then either all steps complete and a checkpoint is
        written, or a training step raises, or the checkpoint write raises. */
    ghost predicate UpdateEffect(before: Snapshot<T>, after: Snapshot<T>, r: Result<()>,
                                 completed: nat, fed: seq<seq<T>>)
    {
      if !isRlTraining then
        r == Ok(()) && completed == 0 && fed == [] && after == before
      else if |before.pool| < SampleSize() then
        r == Err(InsufficientData) && completed == 0 && fed == [] && after == before
      else
        && after.pool == before.pool[SampleSize()..]
        && after.steps == before.steps + completed * StepIncrement()
        && after.steps <= before.steps + StepsPerUpdate()
        && fed <= Repeat(EpochBatches(before.pool[..SampleSize()], batchSize, countOfBatches), numEpochs)
        && AllOfSize(fed, batchSize)
        && match r
           case Ok(_) =>
             && completed == numEpochs * countOfBatches && |fed| == completed
             && after.steps == before.steps + StepsPerUpdate()
             && after.checkpoints == before.checkpoints + 1
           case Err(e) =>
             && after.checkpoints == before.checkpoints
             && ((e == TrainingStepFailed && completed < numEpochs * countOfBatches && |fed| == completed + 1)
                 || (e == CheckpointFailed && completed == numEpochs * countOfBatches && |fed| == completed
                     && after.steps == before.steps + StepsPerUpdate()))
    }

    /** What one iteration of the run loop does, starting from `before`:
        below the gate, or with training disabled, nothing; at or above it, one
        update, which either fails the sampler's assertion without changing
        anything, or consumes one sample from the head of the pool and then
        completes (every step trained, one checkpoint written), stops at a
        training step that raised, or completes the steps but fails to write
        the checkpoint. */
    ghost predicate IterationEffect(before: Snapshot<T>, after: Snapshot<T>, raised: Option<LearnerError>)
    {
      if !isRlTraining || |before.pool| < Threshold() then
        after == before && raised == None
      else if |before.pool| < SampleSize() then
        after == before && raised == Some(InsufficientData)
      else
        && after.pool == before.pool[SampleSize()..]
        && before.steps <= after.steps <= before.steps + StepsPerUpdate()
        && match raised
           case None =>
             after.steps == before.steps + StepsPerUpdate() && after.checkpoints == before.checkpoints + 1
           case Some(e) =>
             && after.checkpoints == before.checkpoints
             && (e == TrainingStepFailed
                 || (e == CheckpointFailed && after.steps == before.steps + StepsPerUpdate()))
    }

    method SendTrajectory(trajectory: T)
      modifies this`trajectories
      ensures trajectories == old(trajectories) + [trajectory]
    {
      trajectories := trajectories + [trajectory];
    }

    method SendFinalTrajectory(trajectory: T)
      modifies this`finalTrajectories
      ensures finalTrajectories == old(finalTrajectories) + [trajectory]
    {
      finalTrajectories := finalTrajectories + [trajectory];
    }

    method SendWinTrajectory(trajectory: T)
      modifies this`winTrajectories
      ensures winTrajectories == old(winTrajectories) + [trajectory]
    {
      winTrajectories := winTrajectories + [trajectory];
    }

    /** Uniform sampling from the ordinary pool. */
    method GetNormalTrajectories() returns (r: Result<seq<T>>)
      modifies this`trajectories
      ensures (r, trajectories) == UniformDraw(old(trajectories), SampleSize())
    {
      var sampleSize := countOfBatches * batchSize;
      var sample := SlicePrefix(trajectories, sampleSize);
      if |sample| != sampleSize {
        return Err(InsufficientData);
      }
      if |trajectories| > 0 {
        trajectories := SliceFrom(trajectories, sampleSize);
      }
      r := Ok(sample);
    }

    /** Outcome-balanced sampling. `shuffled` is the pools as the random
        generator left them, just before each was cut. */
    method GetMixedTrajectories() returns (r: Result<seq<T>>, ghost shuffled: Pools<T>)
      modifies this`trajectories, this`finalTrajectories, this`winTrajectories
      ensures multiset(shuffled.win) == multiset(old(winTrajectories))
      ensures multiset(shuffled.final) == multiset(old(finalTrajectories))
      ensures multiset(shuffled.ordinary) == multiset(old(trajectories))
      ensures !useRandomSample ==> shuffled.ordinary == old(trajectories)
      ensures (r, CurrentPools()) == MixedDraw(SampleSize(), shuffled)
    {
      var sampleSize := SampleSize();
      var sampleFinal := FinalQuota(sampleSize);
      var sampleWin := WinQuota(sampleSize);
      var winPart, finalPart;
      ghost var shuffledWin, shuffledFinal;
      winPart, shuffledWin, winTrajectories :=
        DrawFromClassPool(winTrajectories, sampleWin, WinRetentionThreshold);
      finalPart, shuffledFinal, finalTrajectories :=
        DrawFromClassPool(finalTrajectories, sampleFinal, FinalRetentionThreshold);
      var reduceSampleSize := sampleSize - |winPart| - |finalPart|;
      if useRandomSample {
        trajectories := Shuffle(trajectories);
      }
      shuffled := Pools(trajectories, shuffledFinal, shuffledWin);
      assert multiset(shuffled.win) == multiset(old(winTrajectories))
        && multiset(shuffled.final) == multiset(old(finalTrajectories))
        && multiset(shuffled.ordinary) == multiset(old(trajectories));
      assert reduceSampleSize == ReducedSampleSize(sampleSize, |shuffledWin|, |shuffledFinal|);
      r := TakeOrdinary(sampleSize, winPart + finalPart, reduceSampleSize);
      MixedDrawFromParts(sampleSize, shuffled, winPart + finalPart, r, CurrentPools());
    }

    /** The tail of `get_mixed_trajectories`: the rest of the budget comes from
        the ordinary pool, then the length assertion, then the ordinary pool is
        cut. */
    method TakeOrdinary(sampleSize: nat, classParts: seq<T>, reduceSampleSize: nat)
      returns (r: Result<seq<T>>)
      requires |classParts| + reduceSampleSize == sampleSize
      modifies this`trajectories
      ensures |old(trajectories)| >= reduceSampleSize ==>
        r == Ok(classParts + old(trajectories)[..reduceSampleSize])
        && trajectories == old(trajectories)[reduceSampleSize..]
      ensures |old(trajectories)| < reduceSampleSize ==>
        r == Err(InsufficientData) && trajectories == old(trajectories)
    {
      var batch := classParts + SlicePrefix(trajectories, reduceSampleSize);
      if |batch| != sampleSize {
        return Err(InsufficientData);
      }
      if |trajectories| > 0 {
        trajectories := SliceFrom(trajectories, reduceSampleSize);
      }
      r := Ok(batch);
    }

    /** One update cycle: draw a uniform sample, train on each of its
        mini-batches once per epoch, then write a checkpoint. `completed` is the
        number of training steps that finished; `fed` is the mini-batches handed
        to the external step, in order, including one that raised. */
    method UpdateParameters() returns (r: Result<()>, completed: nat, ghost fed: seq<seq<T>>)
      modifies this`trajectories, agent`steps, this`savedCheckpoints
      ensures UpdateEffect(old(State()), State(), r, completed, fed)
    {
      completed, fed := 0, [];
      if !isRlTraining {
        return Ok(()), completed, fed;
      }
      var drawn := GetNormalTrajectories();
      if drawn.Err? {
        return Err(drawn.error), completed, fed;
      }
      var sample := drawn.value;
      assert sample == old(trajectories)[..SampleSize()];
      assert trajectories == old(trajectories)[SampleSize()..];
      var ok;
      ok, completed, fed := TrainEpochs(sample);
      StepsOfUpdate(completed, numEpochs, countOfBatches, batchSize, sequenceLength);
      assert agent.steps == old(agent.steps) + completed * StepIncrement() <= old(agent.steps) + StepsPerUpdate();
      if !ok {
        return Err(TrainingStepFailed), completed, fed;
      }
      assert agent.steps == old(agent.steps) + StepsPerUpdate();
      var saved := SaveCheckpoint();
      if !saved {
        return Err(CheckpointFailed), completed, fed;
      }
      savedCheckpoints := savedCheckpoints + 1;
      r := Ok(());
    }

    /** The nested epoch and mini-batch loops of `update_parameters`. */
    method TrainEpochs(sample: seq<T>) returns (ok: bool, completed: nat, ghost fed: seq<seq<T>>)
      requires |sample| == SampleSize()
      modifies agent`steps
      ensures agent.steps == old(agent.steps) + Multiple(completed, StepIncrement())
      ensures fed <= Repeat(EpochBatches(sample, batchSize, countOfBatches), numEpochs)
      ensures AllOfSize(fed, batchSize)
      ensures ok ==> completed == Multiple(numEpochs, countOfBatches) && |fed| == completed
      ensures !ok ==> completed < Multiple(numEpochs, countOfBatches) && |fed| == completed + 1
    {
      MultipleIsProduct(countOfBatches, batchSize);
      completed, fed := 0, [];
      ghost var epoch := EpochBatches(sample, batchSize, countOfBatches);
      for ep := 0 to numEpochs
        invariant completed == Multiple(ep, countOfBatches)
        invariant agent.steps == old(agent.steps) + Multiple(completed, StepIncrement())
        invariant fed == Repeat(epoch, ep)
        invariant |fed| == completed
        invariant AllOfSize(fed, batchSize)
      {
        var trained;
        ghost var epochFed;
        ok, trained, epochFed := TrainEpoch(sample);
        EpochScheduled(epoch, ep, numEpochs, fed, epochFed, batchSize);
        MultipleAdds(completed, trained, StepIncrement());
        fed, completed := fed + epochFed, completed + trained;
        if !ok {
          MultipleMonotone(ep + 1, numEpochs, countOfBatches);
          return;
        }
      }
      ok := true;
    }

    /** The inner loop of `update_parameters`: one pass over the mini-batches
        of `sample`. `trained` counts the steps that finished; `fed` is the
        mini-batches handed to the external step, including one that raised. */
    method TrainEpoch(sample: seq<T>) returns (ok: bool, trained: nat, ghost fed: seq<seq<T>>)
      requires |sample| == Multiple(countOfBatches, batchSize)
      modifies agent`steps
      ensures agent.steps == old(agent.steps) + Multiple(trained, StepIncrement())
      ensures AllOfSize(fed, batchSize)
      ensures fed <= EpochBatches(sample, batchSize, countOfBatches)
      ensures ok ==> trained == countOfBatches && fed == EpochBatches(sample, batchSize, countOfBatches)
      ensures !ok ==> trained < countOfBatches && fed == EpochBatches(sample, batchSize, trained + 1)
    {
      trained, fed := 0, [];
      for b := 0 to countOfBatches
        invariant trained == b
        invariant agent.steps == old(agent.steps) + Multiple(trained, StepIncrement())
        invariant fed == EpochBatches(sample, batchSize, b)
      {
        var miniBatch := MiniBatch(sample, batchSize, b);
        ghost var handed;
        ok, handed := LossAndOptimizerStep(miniBatch);
        fed := fed + [handed];
        if !ok {
          EpochHeadSized(sample, batchSize, countOfBatches, b + 1);
          return;
        }
        agent.steps := agent.steps + StepIncrement();
        trained := trained + 1;
      }
      EpochHeadSized(sample, batchSize, countOfBatches, countOfBatches);
      ok := true;
    }

    /** `trace` is a run of the loop: each state follows from the one before by
        one iteration, which raised what `history` records. */
    ghost predicate Traced(trace: seq<Snapshot<T>>, history: seq<Option<LearnerError>>)
    {
      && |trace| == |history| + 1
      && forall k {:trigger IterationEffect(trace[k], trace[k + 1], history[k])} ::
           0 <= k < |history| ==> IterationEffect(trace[k], trace[k + 1], history[k])
    }

    /** One more iteration extends a run. */
    lemma TraceExtends(trace: seq<Snapshot<T>>, history: seq<Option<LearnerError>>,
                       next: Snapshot<T>, raised: Option<LearnerError>)
      requires Traced(trace, history)
      requires IterationEffect(trace[|trace| - 1], next, raised)
      ensures Traced(trace + [next], history + [raised])
    {
    }

    /** In a run, iteration `k` leads from state `k` to state `k + 1`. */
    lemma TracedStep(trace: seq<Snapshot<T>>, history: seq<Option<LearnerError>>, k: nat)
      requires Traced(trace, history)
      requires k < |history|
      ensures IterationEffect(trace[k], trace[k + 1], history[k])
    {
    }

    /** One iteration only removes a head of the ordinary pool and never
        turns the step or checkpoint counters back; with training disabled it
        does nothing at all. */
    lemma IterationProgress(before: Snapshot<T>, after: Snapshot<T>, raised: Option<LearnerError>)
      requires IterationEffect(before, after, raised)
      ensures IsSuffix(after.pool, before.pool)
      ensures before.steps <= after.steps && before.checkpoints <= after.checkpoints
      ensures !isRlTraining ==> after == before && raised.None?
    {
    }

    /** The same holds across a whole run. */
    lemma {:induction false} TracedProgress(trace: seq<Snapshot<T>>, history: seq<Option<LearnerError>>)
      requires Traced(trace, history)
      ensures IsSuffix(trace[|trace| - 1].pool, trace[0].pool)
      ensures trace[0].steps <= trace[|trace| - 1].steps
      ensures trace[0].checkpoints <= trace[|trace| - 1].checkpoints
      ensures !isRlTraining ==>
        trace[|trace| - 1] == trace[0] && forall k :: 0 <= k < |history| ==> history[k].None?
    {
      var n := |history|;
      if n > 0 {
        var shorter, earlier := trace[..n], history[..n - 1];
        forall k | 0 <= k < |earlier|
          ensures IterationEffect(shorter[k], shorter[k + 1], earlier[k])
        {
          assert shorter[k] == trace[k] && shorter[k + 1] == trace[k + 1] && earlier[k] == history[k];
        }
        TracedProgress(shorter, earlier);
        TracedStep(trace, history, n - 1);
        IterationProgress(trace[n - 1], trace[n], history[n - 1]);
        SuffixTransitive(trace[n].pool, trace[n - 1].pool, trace[0].pool);
        if !isRlTraining {
          forall k | 0 <= k < n
            ensures history[k].None?
          {
            if k < n - 1 {
              assert history[k] == earlier[k];
            }
          }
        }
      }
    }

    /** The body of the run loop's inner `try`: update when the ordinary pool
        has reached the gate. Returns the exception it raised, if any. */
    method RunIteration() returns (raised: Option<LearnerError>)
      modifies this`trajectories, agent`steps, this`savedCheckpoints
      ensures IterationEffect(old(State()), State(), raised)
      ensures bufferSize >= 1 ==> raised != Some(InsufficientData)
      ensures IsSuffix(trajectories, old(trajectories))
    {
      raised := None;
      if |trajectories| >= Threshold() {
        if bufferSize >= 1 {
          GateCoversSample(|trajectories|, bufferSize, countOfBatches, batchSize);
        }
        var r, completed;
        ghost var fed;
        r, completed, fed := UpdateParameters();
        if r.Err? {
          raised := Some(r.error);
        }
      }
    }

    /** The background loop. `clock` holds the successive readings of the wall
        clock: the first is the start time, the next one is read before each
        iteration. Returns how many iterations ran and the exception, if any,
        that ended the loop. `trace` is the state before each iteration and
        after the last, and `history` what each iteration raised. */
    method Run(clock: seq<real>)
      returns (iterations: nat, failure: Option<LearnerError>,
               ghost history: seq<Option<LearnerError>>, ghost trace: seq<Snapshot<T>>)
      requires |clock| >= 2
      requires clock[|clock| - 1] - clock[0] >= maxTimeForTraining
      modifies this`isRunning, this`trajectories, agent`steps, this`savedCheckpoints
      ensures !isRunning
      ensures iterations + 1 < |clock|
      ensures forall k :: 1 <= k <= iterations ==> clock[k] - clock[0] < maxTimeForTraining
      ensures failure.None? ==> clock[iterations + 1] - clock[0] >= maxTimeForTraining
      ensures failure.Some? ==> iterations >= 1
      ensures |history| == iterations && Traced(trace, history)
      ensures trace[0] == old(State()) && trace[iterations] == State()
      ensures forall k :: 0 <= k < iterations - 1 ==> history[k].None?
      ensures iterations >= 1 ==> failure == history[iterations - 1]
      ensures iterations == 0 ==>
        trajectories == old(trajectories) && agent.steps == old(agent.steps)
        && savedCheckpoints == old(savedCheckpoints)
      ensures bufferSize >= 1 ==> failure != Some(InsufficientData)
      ensures !isRlTraining ==>
        && failure.None? && trajectories == old(trajectories) && agent.steps == old(agent.steps)
        && savedCheckpoints == old(savedCheckpoints)
      ensures IsSuffix(trajectories, old(trajectories))
      ensures agent.steps >= old(agent.steps) && savedCheckpoints >= old(savedCheckpoints)
    {
      var startTime := clock[0];
      isRunning := true;
      iterations, failure, history, trace := 0, None, [], [State()];
      while clock[iterations + 1] - startTime < maxTimeForTraining
        invariant iterations + 1 < |clock|
        invariant forall k :: 1 <= k <= iterations ==> clock[k] - clock[0] < maxTimeForTraining
        invariant failure.None?
        invariant |history| == iterations && Traced(trace, history)
        invariant trace[0] == old(State()) && trace[iterations] == State()
        invariant forall k :: 0 <= k < iterations ==> history[k].None?
        decreases |clock| - iterations
      {
        assert forall k :: 1 <= k <= iterations + 1 ==> clock[k] - clock[0] < maxTimeForTraining;
        var raised := RunIteration();
        TraceExtends(trace, history, State(), raised);
        iterations, history, trace := iterations + 1, history + [raised], trace + [State()];
        if raised.Some? {
          failure := raised;
          break;
        }
      }
      TracedProgress(trace, history);
      isRunning := false;
    }
  }
}
