/**
  Sampling policies of the learner: the arithmetic of the mixed (outcome-balanced)
  quotas and the value-level specification of the two ways a sample batch is
  drawn from the trajectory pools. The imperative learner in learner.dfy is
  proved against these functions.
 */
module Sampling {

  /** The ways an update can fail: the sampler's length assertion, an
      exception raised by the external loss / backward / optimizer step, and
      an exception raised while writing the checkpoint. */
  datatype LearnerError = InsufficientData | TrainingStepFailed | CheckpointFailed

  datatype Result<+R> = Ok(value: R) | Err(error: LearnerError)

  datatype Option<+R> = None | Some(value: R)

  /** The three trajectory pools, partitioned by outcome class. */
  datatype Pools<T> = Pools(ordinary: seq<T>, final: seq<T>, win: seq<T>)

  /** The pool sizes above which the mixed sampler removes what it drew. */
  const WinRetentionThreshold: nat := 128
  const FinalRetentionThreshold: nat := 64

  function Min(a: int, b: int): int
  {
    if a <= b then a else b
  }

  /** Python's `s[:k]` for a non-negative k: it never fails, it clamps. */
  function SlicePrefix<T>(s: seq<T>, k: nat): (r: seq<T>)
    ensures |r| == Min(k, |s|)
    ensures r <= s
  {
    if k <= |s| then s[..k] else s
  }

  /** Python's `s[k:]` for a non-negative k. */
  function SliceFrom<T>(s: seq<T>, k: nat): (r: seq<T>)
    ensures SlicePrefix(s, k) + r == s
    ensures |r| == |s| - Min(k, |s|)
  {
    if k <= |s| then s[k..] else []
  }

  /** `sample_win = min(1, int(sample_size * 0.1))`: 1 exactly when the sample
      holds at least ten trajectories. */
  function WinQuota(sampleSize: nat): (q: nat)
    ensures q <= 1
    ensures q == 1 <==> sampleSize >= 10
  {
    Min(1, sampleSize / 10)
  }

  /** `sample_final = min(1, int(sample_size * 0.2))`: 1 exactly when the sample
      holds at least five trajectories. */
  function FinalQuota(sampleSize: nat): (q: nat)
    ensures q <= 1
    ensures q == 1 <==> sampleSize >= 5
  {
    Min(1, sampleSize * 2 / 10)
  }

  /** How many trajectories a class pool of length `poolLength` contributes
      when asked for `quota` of them (an empty pool is skipped altogether). */
  function Drawn(poolLength: nat, quota: nat): (k: nat)
    ensures k <= quota && k <= poolLength
    ensures poolLength == 0 ==> k == 0
    ensures poolLength >= quota ==> k == quota
  {
    if poolLength > 0 then Min(quota, poolLength) else 0
  }

  /** `reduce_sample_size`: what is left of the budget for the ordinary pool
      once the win and final pools have contributed. */
  function ReducedSampleSize(sampleSize: nat, winLength: nat, finalLength: nat): (r: nat)
    ensures sampleSize - 2 <= r <= sampleSize
    ensures r == sampleSize - (if winLength > 0 && sampleSize >= 10 then 1 else 0)
                            - (if finalLength > 0 && sampleSize >= 5 then 1 else 0)
  {
    sampleSize - Drawn(winLength, WinQuota(sampleSize)) - Drawn(finalLength, FinalQuota(sampleSize))
  }

  /** Uniform sampling: take the first `sampleSize` ordinary trajectories and keep
      the rest; the length assertion fails when too few are pooled. The second
      component is the pool afterwards. */
  function UniformDraw<T>(pool: seq<T>, sampleSize: nat): (r: (Result<seq<T>>, seq<T>))
    ensures r.0.Ok? <==> |pool| >= sampleSize
    ensures r.0.Ok? ==> |r.0.value| == sampleSize && r.0.value + r.1 == pool
    ensures r.0.Err? ==> r.0.error == InsufficientData && r.1 == pool
    ensures r.0.Ok? ==> multiset(r.0.value) + multiset(r.1) == multiset(pool)
  {
    var taken := SlicePrefix(pool, sampleSize);
    if |taken| != sampleSize then
      (Err(InsufficientData), pool)
    else
      (Ok(taken), if |pool| > 0 then SliceFrom(pool, sampleSize) else pool)
  }

  /** What a class pool looks like after a mixed draw: the drawn head is removed
      only when the pool is longer than `threshold`. */
  function Retained<T>(pool: seq<T>, quota: nat, threshold: nat): (p: seq<T>)
    requires quota <= 1
    ensures |pool| > threshold ==> p == pool[quota..] && |p| == |pool| - quota
    ensures |pool| <= threshold ==> p == pool
  {
    if |pool| > threshold then SliceFrom(pool, quota) else pool
  }

  /** Mixed sampling on pools that have already been shuffled: the drawn win
      part, then the final part, then the ordinary part; the length assertion
      fails when the ordinary pool cannot cover the reduced budget. The second
      component is the pools afterwards. */
  function MixedDraw<T>(sampleSize: nat, p: Pools<T>): (r: (Result<seq<T>>, Pools<T>))
    ensures r.0.Ok? <==> |p.ordinary| >= ReducedSampleSize(sampleSize, |p.win|, |p.final|)
    ensures r.0.Ok? ==> |r.0.value| == sampleSize
    ensures r.0.Err? ==> r.0.error == InsufficientData && r.1.ordinary == p.ordinary
    ensures var reduce := ReducedSampleSize(sampleSize, |p.win|, |p.final|);
            r.0.Ok? ==>
              && r.0.value == p.win[..Drawn(|p.win|, WinQuota(sampleSize))]
                              + p.final[..Drawn(|p.final|, FinalQuota(sampleSize))]
                              + p.ordinary[..reduce]
              && r.1.ordinary == p.ordinary[reduce..]
    ensures r.1.win == Retained(p.win, WinQuota(sampleSize), WinRetentionThreshold)
    ensures r.1.final == Retained(p.final, FinalQuota(sampleSize), FinalRetentionThreshold)
  {
    var winPart := if |p.win| > 0 then SlicePrefix(p.win, WinQuota(sampleSize)) else [];
    var win' := if |p.win| > 0 && |p.win| > WinRetentionThreshold
                then SliceFrom(p.win, WinQuota(sampleSize)) else p.win;
    var finalPart := if |p.final| > 0 then SlicePrefix(p.final, FinalQuota(sampleSize)) else [];
    var final' := if |p.final| > 0 && |p.final| > FinalRetentionThreshold
                  then SliceFrom(p.final, FinalQuota(sampleSize)) else p.final;
    var reduce := sampleSize - |winPart| - |finalPart|;
    assert reduce == ReducedSampleSize(sampleSize, |p.win|, |p.final|);
    var batch := winPart + finalPart + SlicePrefix(p.ordinary, reduce);
    if |batch| != sampleSize then
      (Err(InsufficientData), Pools(p.ordinary, final', win'))
    else
      var ordinary' := if |p.ordinary| > 0 then SliceFrom(p.ordinary, reduce) else p.ordinary;
      (Ok(batch), Pools(ordinary', final', win'))
  }

  /** With no win and no final trajectories pooled, mixed sampling is uniform
      sampling: the same batch or the same assertion failure, and the same
      ordinary pool afterwards. */
  lemma MixedWithoutClassPoolsIsUniform<T>(sampleSize: nat, p: Pools<T>)
    requires p.win == [] && p.final == []
    ensures MixedDraw(sampleSize, p).0 == UniformDraw(p.ordinary, sampleSize).0
    ensures MixedDraw(sampleSize, p).1 == Pools(UniformDraw(p.ordinary, sampleSize).1, [], [])
  {
    var uniform := UniformDraw(p.ordinary, sampleSize);
    assert ReducedSampleSize(sampleSize, 0, 0) == sampleSize;
    if uniform.0.Ok? {
      var taken := uniform.0.value;
      assert taken == (taken + uniform.1)[..sampleSize];
      assert uniform.1 == (taken + uniform.1)[sampleSize..];
      assert [] + p.ordinary[..sampleSize] == taken;
    }
    MixedDrawFromParts(sampleSize, p, [], uniform.0, Pools(uniform.1, [], []));
  }

  /** Whatever draws the class parts, cuts the class pools and then takes the
      ordinary part as `MixedDraw` describes has computed `MixedDraw`. */
  lemma MixedDrawFromParts<T>(sampleSize: nat, p: Pools<T>, classParts: seq<T>,
                              r: Result<seq<T>>, after: Pools<T>)
    requires classParts == p.win[..Drawn(|p.win|, WinQuota(sampleSize))]
                           + p.final[..Drawn(|p.final|, FinalQuota(sampleSize))]
    requires after.win == Retained(p.win, WinQuota(sampleSize), WinRetentionThreshold)
    requires after.final == Retained(p.final, FinalQuota(sampleSize), FinalRetentionThreshold)
    requires var reduce := ReducedSampleSize(sampleSize, |p.win|, |p.final|);
             |p.ordinary| >= reduce ==>
               r == Ok(classParts + p.ordinary[..reduce]) && after.ordinary == p.ordinary[reduce..]
    requires var reduce := ReducedSampleSize(sampleSize, |p.win|, |p.final|);
             |p.ordinary| < reduce ==> r == Err(InsufficientData) && after.ordinary == p.ordinary
    ensures (r, after) == MixedDraw(sampleSize, p)
  {
  }

  /** `s` is what is left of `t` after some head of it was removed. */
  predicate IsSuffix<T(==)>(s: seq<T>, t: seq<T>)
  {
    |s| <= |t| && s == t[|t| - |s|..]
  }

  /** Removing a head twice removes a head. */
  lemma SuffixTransitive<T>(s: seq<T>, t: seq<T>, u: seq<T>)
    requires IsSuffix(s, t) && IsSuffix(t, u)
    ensures IsSuffix(s, u)
  {
  }

  /** The run loop's gate, `len(trajectories) >= buffer_size * count_of_batches
      * batch_size`, guarantees that uniform sampling succeeds whenever the
      buffer factor is at least one. */
  lemma GateCoversSample(poolLength: nat, bufferSize: nat, countOfBatches: nat, batchSize: nat)
    requires bufferSize >= 1
    requires poolLength >= bufferSize * countOfBatches * batchSize
    ensures poolLength >= countOfBatches * batchSize
  {
  }
}
