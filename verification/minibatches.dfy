/**
  How one update step cuts its sample batch: `count_of_batches` contiguous
  mini-batches of `batch_size` trajectories, visited once per epoch.

  Offsets and counts are written with `Multiple(k, unit)`, which is `k * unit`
  (lemma MultipleIsProduct) built up by repeated addition, so that the proofs
  about the training loops stay within linear arithmetic.
 */
module MiniBatches {
  import opened Sampling

  /** `k` copies of `unit`, added up. */
  function Multiple(k: nat, unit: nat): nat
  {
    if k == 0 then 0 else Multiple(k - 1, unit) + unit
  }

  lemma {:induction false} MultipleIsProduct(k: nat, unit: nat)
    ensures Multiple(k, unit) == k * unit
  {
    if k > 0 {
      MultipleIsProduct(k - 1, unit);
      assert k * unit == (k - 1) * unit + unit;
    }
  }

  lemma {:induction false} MultipleAdds(a: nat, b: nat, unit: nat)
    ensures Multiple(a + b, unit) == Multiple(a, unit) + Multiple(b, unit)
  {
    if b > 0 {
      MultipleAdds(a, b - 1, unit);
    }
  }

  lemma {:induction false} MultipleMonotone(a: nat, b: nat, unit: nat)
    requires a <= b
    ensures Multiple(a, unit) <= Multiple(b, unit)
  {
    if a < b {
      MultipleMonotone(a, b - 1, unit);
    }
  }

  /** `trajectories[b * batch_size : (b + 1) * batch_size]`, with Python's
      clamping slice semantics. */
  function MiniBatch<T>(sample: seq<T>, batchSize: nat, b: nat): seq<T>
  {
    SlicePrefix(SliceFrom(sample, Multiple(b, batchSize)), batchSize)
  }

  /** The mini-batches of one epoch, in the order they are trained on. */
  function EpochBatches<T>(sample: seq<T>, batchSize: nat, count: nat): (r: seq<seq<T>>)
    ensures |r| == count
  {
    if count == 0 then []
    else EpochBatches(sample, batchSize, count - 1) + [MiniBatch(sample, batchSize, count - 1)]
  }

  /** Concatenation of a sequence of mini-batches. */
  function Flatten<T>(parts: seq<seq<T>>): seq<T>
  {
    if parts == [] then [] else Flatten(parts[..|parts| - 1]) + parts[|parts| - 1]
  }

  /** `parts` visited `times` times in a row. */
  function Repeat<T>(parts: seq<T>, times: nat): seq<T>
  {
    if times == 0 then [] else Repeat(parts, times - 1) + parts
  }

  /** `times` visits of `parts` have `times * |parts|` entries. */
  lemma {:induction false} RepeatLength<T>(parts: seq<T>, times: nat)
    ensures |Repeat(parts, times)| == Multiple(times, |parts|)
  {
    if times > 0 {
      RepeatLength(parts, times - 1);
    }
  }

  /** When the sample has exactly `count` blocks of `batchSize` trajectories no
      slice is clamped: mini-batch `b` is the block starting at `b * batchSize`. */
  lemma MiniBatchIsBlock<T>(sample: seq<T>, batchSize: nat, count: nat, b: nat)
    requires |sample| == Multiple(count, batchSize)
    requires b < count
    ensures Multiple(b + 1, batchSize) <= |sample|
    ensures MiniBatch(sample, batchSize, b)
         == sample[Multiple(b, batchSize)..Multiple(b + 1, batchSize)]
    ensures |MiniBatch(sample, batchSize, b)| == batchSize
  {
    MultipleMonotone(b + 1, count, batchSize);
    var start := Multiple(b, batchSize);
    var rest := sample[start..];
    assert SliceFrom(sample, start) == rest;
    assert rest[..batchSize] == sample[start..start + batchSize];
  }

  /** The mini-batches of an epoch partition the sample: each has exactly
      `batchSize` trajectories, and together, in order, they are the sample. */
  lemma {:induction false} EpochPartitionsSample<T>(sample: seq<T>, batchSize: nat, count: nat)
    requires |sample| == count * batchSize
    ensures forall b :: 0 <= b < count ==> |EpochBatches(sample, batchSize, count)[b]| == batchSize
    ensures Flatten(EpochBatches(sample, batchSize, count)) == sample
  {
    MultipleIsProduct(count, batchSize);
    forall b | 0 <= b < count
      ensures |EpochBatches(sample, batchSize, count)[b]| == batchSize
    {
      EpochBatchAt(sample, batchSize, count, b);
      MiniBatchIsBlock(sample, batchSize, count, b);
    }
    FlattenPrefix(sample, batchSize, count, count);
    assert sample[..|sample|] == sample;
  }

  /** The first `k` mini-batches of an epoch are a prefix of it. */
  lemma {:induction false} EpochPrefix<T>(sample: seq<T>, batchSize: nat, k: nat, count: nat)
    requires k <= count
    ensures EpochBatches(sample, batchSize, k) == EpochBatches(sample, batchSize, count)[..k]
  {
    if k < count {
      var shorter := EpochBatches(sample, batchSize, count - 1);
      EpochPrefix(sample, batchSize, k, count - 1);
      assert (shorter + [MiniBatch(sample, batchSize, count - 1)])[..k] == shorter[..k];
    }
  }

  /** Entry `b` of an epoch is mini-batch `b`. */
  lemma {:induction false} EpochBatchAt<T>(sample: seq<T>, batchSize: nat, count: nat, b: nat)
    requires b < count
    ensures EpochBatches(sample, batchSize, count)[b] == MiniBatch(sample, batchSize, b)
  {
    var prefix := EpochBatches(sample, batchSize, count - 1);
    assert EpochBatches(sample, batchSize, count) == prefix + [MiniBatch(sample, batchSize, count - 1)];
    if b < count - 1 {
      EpochBatchAt(sample, batchSize, count - 1, b);
    }
  }

  /** The first `k` mini-batches of an epoch cover the first `k * batchSize`
      trajectories of the sample. */
  lemma {:induction false} FlattenPrefix<T>(sample: seq<T>, batchSize: nat, count: nat, k: nat)
    requires |sample| == Multiple(count, batchSize)
    requires k <= count
    ensures Multiple(k, batchSize) <= |sample|
    ensures Flatten(EpochBatches(sample, batchSize, k)) == sample[..Multiple(k, batchSize)]
  {
    if k == 0 {
      assert sample[..Multiple(0, batchSize)] == [];
    } else {
      FlattenPrefix(sample, batchSize, count, k - 1);
      FlattenNextBlock(sample, batchSize, count, k - 1);
    }
  }

  /** One more mini-batch covers one more block of the sample. */
  lemma FlattenNextBlock<T>(sample: seq<T>, batchSize: nat, count: nat, k: nat)
    requires |sample| == Multiple(count, batchSize)
    requires k < count
    requires Multiple(k, batchSize) <= |sample|
    requires Flatten(EpochBatches(sample, batchSize, k)) == sample[..Multiple(k, batchSize)]
    ensures Multiple(k + 1, batchSize) <= |sample|
    ensures Flatten(EpochBatches(sample, batchSize, k + 1)) == sample[..Multiple(k + 1, batchSize)]
  {
    var prev := EpochBatches(sample, batchSize, k);
    var block := MiniBatch(sample, batchSize, k);
    MiniBatchIsBlock(sample, batchSize, count, k);
    FlattenAppendBlock(sample, prev, block, Multiple(k, batchSize), Multiple(k + 1, batchSize));
    assert EpochBatches(sample, batchSize, k + 1) == prev + [block];
  }

  /** Appending the next contiguous block extends the covered prefix. */
  lemma FlattenAppendBlock<T>(sample: seq<T>, prev: seq<seq<T>>, block: seq<T>, start: nat, end: nat)
    requires start <= end <= |sample|
    requires Flatten(prev) == sample[..start]
    requires block == sample[start..end]
    ensures Flatten(prev + [block]) == sample[..end]
  {
  }

  /** Every mini-batch in `parts` holds exactly `size` trajectories. */
  predicate AllOfSize<T>(parts: seq<seq<T>>, size: nat)
  {
    forall j :: 0 <= j < |parts| ==> |parts[j]| == size
  }

  /** The first `k` mini-batches of an epoch each hold `batchSize`
      trajectories and are a prefix of the epoch. */
  lemma EpochHeadSized<T>(sample: seq<T>, batchSize: nat, count: nat, k: nat)
    requires |sample| == Multiple(count, batchSize)
    requires k <= count
    ensures AllOfSize(EpochBatches(sample, batchSize, k), batchSize)
    ensures EpochBatches(sample, batchSize, k) <= EpochBatches(sample, batchSize, count)
  {
    EpochPrefix(sample, batchSize, k, count);
    forall j | 0 <= j < k
      ensures |EpochBatches(sample, batchSize, k)[j]| == batchSize
    {
      EpochBatchAt(sample, batchSize, k, j);
      MiniBatchIsBlock(sample, batchSize, count, j);
    }
  }

  /** Appending a (possibly partial) epoch after `ep` full epochs stays within
      the schedule of `times` epochs, and a full one completes epoch `ep + 1`. */
  lemma EpochScheduled<T>(epoch: seq<seq<T>>, ep: nat, times: nat,
                          fed: seq<seq<T>>, epochFed: seq<seq<T>>, size: nat)
    requires ep < times
    requires fed == Repeat(epoch, ep)
    requires epochFed <= epoch
    requires AllOfSize(fed, size) && AllOfSize(epochFed, size)
    ensures fed + epochFed <= Repeat(epoch, times)
    ensures epochFed == epoch ==> fed + epochFed == Repeat(epoch, ep + 1)
    ensures AllOfSize(fed + epochFed, size)
  {
    assert epochFed == epoch[..|epochFed|];
    RepeatPrefix(epoch, ep, |epochFed|, times);
    forall j | 0 <= j < |fed + epochFed|
      ensures |(fed + epochFed)[j]| == size
    {
      if j >= |fed| {
        assert (fed + epochFed)[j] == epochFed[j - |fed|];
      }
    }
  }

  /** Epoch `e` is laid out after `e` full epochs: a partial epoch is a prefix
      of the full schedule. */
  lemma {:induction false} RepeatPrefix<T>(parts: seq<T>, done: nat, b: nat, times: nat)
    requires done < times
    requires b <= |parts|
    ensures Repeat(parts, done) + parts[..b] <= Repeat(parts, times)
  {
    if done + 1 == times {
      assert Repeat(parts, times) == Repeat(parts, done) + parts[..b] + parts[b..];
    } else {
      RepeatPrefix(parts, done, b, times - 1);
    }
  }
}
