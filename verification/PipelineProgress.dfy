/** patches/monitoring_patched.py: the normalised progress of a pipeline whose stages may spawn tasks. */
module PipelineProgress {
  import opened Wrappers

  /** task_stats of one stage: tasks completed, and tasks it has dynamically spawned for the next one. */
  datatype Stage = Stage(completed: nat, spawned: nat)

  /** Completed tasks in units of the pipeline's own inputs. */
  function Scaled(completed: nat, factor: real): real {
    completed as real * factor
  }

  /** The factor behind a stage that has completed something: its outputs weigh what its own inputs weighed. */
  function Rescaled(factor: real, stage: Stage): real
    requires stage.completed > 0
  {
    factor * (stage.completed as real / (stage.completed + stage.spawned) as real)
  }

  /** The normalisation factor of stage k. */
  function Factor(stages: seq<Stage>, k: nat): real
    requires k <= |stages|
  {
    if k == 0 then 1.0
    else
      var before, stage := Factor(stages, k - 1), stages[k - 1];
      if stage.completed > 0 then Rescaled(before, stage) else before
  }

  /** The normalised completions of stage k. */
  function Normalised(stages: seq<Stage>, k: nat): real
    requires k < |stages|
  {
    Scaled(stages[k].completed, Factor(stages, k))
  }

  /** The sum over the first k stages. */
  function Total(stages: seq<Stage>, k: nat): real
    requires k <= |stages|
  {
    if k == 0 then 0.0 else Total(stages, k - 1) + Normalised(stages, k - 1)
  }

  // ----- sums of lists -----

  function SumOf(values: seq<real>): real {
    if values == [] then 0.0 else SumOf(values[..|values| - 1]) + values[|values| - 1]
  }

  /** The sum is fixed by these: nothing for no value, a value for itself, and parts add up. */
  lemma {:induction false} SumOfParts(a: seq<real>, b: seq<real>)
    ensures SumOf([]) == 0.0
    ensures forall x :: SumOf([x]) == x
    ensures SumOf(a + b) == SumOf(a) + SumOf(b)
  {
    forall x
      ensures SumOf([x]) == x
    {
      assert [x][..0] == [];
    }
    if b == [] {
      assert a + b == a;
    } else {
      SumOfParts(a, b[..|b| - 1]);
      assert (a + b)[..|a + b| - 1] == a + b[..|b| - 1];
    }
  }

  /** Raising one value raises the sum by as much. */
  lemma SumOfUpdate(values: seq<real>, k: nat, v: real)
    requires k < |values|
    ensures SumOf(values[k := v]) == SumOf(values) + (v - values[k])
  {
    var before, after := values[..k], values[k + 1..];
    assert values == before + ([values[k]] + after) && values[k := v] == before + ([v] + after);
    SumOfParts(before, [values[k]] + after);
    SumOfParts([values[k]], after);
    SumOfParts(before, [v] + after);
    SumOfParts([v], after);
    hide SumOf;
  }

  /** The total over the first k stages is the sum of their normalised completions. */
  lemma {:induction false} TotalIsSum(stages: seq<Stage>, norm: seq<real>, k: nat)
    requires k <= |norm| == |stages|
    requires forall j :: 0 <= j < |stages| ==> norm[j] == Normalised(stages, j)
    ensures Total(stages, k) == SumOf(norm[..k])
  {
    if k > 0 {
      TotalIsSum(stages, norm, k - 1);
      assert norm[..k][..k - 1] == norm[..k - 1];
    }
  }

  /** The loop over the stages. */
  method NormaliseStages(stages: seq<Stage>) returns (finishedNorm: seq<real>, totalCompletedTaskStages: real)
    ensures |finishedNorm| == |stages|
    ensures forall k :: 0 <= k < |stages| ==> finishedNorm[k] == Normalised(stages, k)
    ensures totalCompletedTaskStages == Total(stages, |stages|) == SumOf(finishedNorm)
  {
    hide Scaled;
    hide Rescaled;
    var normalizationFactor := 1.0;
    finishedNorm, totalCompletedTaskStages := [], 0.0;
    for k := 0 to |stages|
      invariant |finishedNorm| == k
      invariant forall j :: 0 <= j < k ==> finishedNorm[j] == Normalised(stages, j)
      invariant normalizationFactor == Factor(stages, k)
      invariant totalCompletedTaskStages == Total(stages, k)
    {
      var stage := stages[k];
      var totalCompletedNorm := Scaled(stage.completed, normalizationFactor);
      finishedNorm := finishedNorm + [totalCompletedNorm];
      totalCompletedTaskStages := totalCompletedTaskStages + totalCompletedNorm;
      if stage.completed > 0 {
        normalizationFactor := Rescaled(normalizationFactor, stage);
      }
    }
    hide Normalised;
    hide Total;
    hide Factor;
    TotalIsSum(stages, finishedNorm, |stages|);
    assert finishedNorm[..|stages|] == finishedNorm;
  }

  lemma ZeroProduct(a: nat, b: nat)
    ensures a * b == 0 <==> a == 0 || b == 0
  {
  }

  method UpdateProgress(stages: seq<Stage>, inputLength: nat) returns (finishedNorm: seq<real>, progress: Result<real>)
    ensures |finishedNorm| == |stages|
    ensures forall k :: 0 <= k < |stages| ==> finishedNorm[k] == Normalised(stages, k)
    ensures inputLength == 0 ==> progress == Success(0.0)
    ensures inputLength > 0 && stages == [] ==> progress == Failure(ZeroDivisionError)
    ensures inputLength > 0 && stages != [] ==>
      && progress == Success(Total(stages, |stages|) / (inputLength * |stages|) as real)
      && progress.value * (inputLength * |stages|) as real == SumOf(finishedNorm)
  {
    hide Normalised;
    hide Total;
    hide SumOf;
    var totalCompletedTaskStages;
    finishedNorm, totalCompletedTaskStages := NormaliseStages(stages);
    if inputLength > 0 {
      var denominator := inputLength * |stages|;
      ZeroProduct(inputLength, |stages|);
      if denominator == 0 {
        return finishedNorm, Failure(ZeroDivisionError);
      }
      progress := Success(totalCompletedTaskStages / denominator as real);
      ShareFacts(totalCompletedTaskStages, denominator as real);
    } else {
      progress := Success(0.0);
    }
  }

  /**
   What a real run satisfies: the first stage completes at most the input, every other stage at
   most what the one before it has completed or spawned, and nothing is spawned by an idle stage.
   */
  predicate Plausible(stages: seq<Stage>, inputLength: nat) {
    && (stages != [] ==> stages[0].completed <= inputLength)
    && (forall k :: 0 <= k < |stages| - 1 ==> stages[k + 1].completed <= stages[k].completed + stages[k].spawned)
    && (forall k :: 0 <= k < |stages| && stages[k].completed == 0 ==> stages[k].spawned == 0)
  }

  /** Every stage has finished everything it was given. */
  predicate Complete(stages: seq<Stage>, inputLength: nat) {
    && (stages != [] ==> stages[0].completed == inputLength)
    && (forall k :: 0 <= k < |stages| - 1 ==> stages[k + 1].completed == stages[k].completed + stages[k].spawned)
  }

  /** What a stage has been given weighs, behind it, what it has completed weighs at it. */
  lemma RescaledFacts(factor: real, stage: Stage)
    requires factor > 0.0 && stage.completed > 0
    ensures Rescaled(factor, stage) > 0.0
    ensures Scaled(stage.completed + stage.spawned, Rescaled(factor, stage)) == Scaled(stage.completed, factor)
  {
    var done, given := stage.completed as real, (stage.completed + stage.spawned) as real;
    ShareFacts(done, given);
    Rescale(given, done / given, done, factor);
  }

  lemma ShareFacts(done: real, given: real)
    requires given > 0.0
    ensures done / given * given == given * (done / given) == done
    ensures done > 0.0 ==> done / given > 0.0
  {
  }

  lemma Rescale(given: real, ratio: real, done: real, factor: real)
    requires given * ratio == done && ratio > 0.0 && factor > 0.0
    ensures factor * ratio > 0.0
    ensures given * (factor * ratio) == done * factor
  {
    assert given * (factor * ratio) == (given * ratio) * factor;
  }

  lemma {:induction false} FactorIsPositive(stages: seq<Stage>, k: nat)
    requires k <= |stages|
    ensures Factor(stages, k) > 0.0
  {
    hide Rescaled;
    if k > 0 {
      FactorIsPositive(stages, k - 1);
      if stages[k - 1].completed > 0 {
        RescaledFacts(Factor(stages, k - 1), stages[k - 1]);
      }
    }
  }

  /** Scaling by a positive factor keeps the order strictly. */
  lemma ScaledIsMonotonic(a: nat, b: nat, factor: real)
    requires factor > 0.0 && a <= b
    ensures 0.0 <= Scaled(a, factor) <= Scaled(b, factor)
    ensures Scaled(a, factor) == Scaled(b, factor) <==> a == b
    ensures Scaled(0, factor) == 0.0
  {
    assert Scaled(b, factor) - Scaled(a, factor) == (b - a) as real * factor;
  }

  /** Normalised completions never increase along the stages, and stay equal exactly when the stage has kept up. */
  lemma NormalisedDecreases(stages: seq<Stage>, inputLength: nat, k: nat)
    requires Plausible(stages, inputLength) && k + 1 < |stages|
    ensures 0.0 <= Normalised(stages, k + 1) <= Normalised(stages, k)
    ensures stages[k].completed > 0 ==>
      (Normalised(stages, k + 1) == Normalised(stages, k) <==>
       stages[k + 1].completed == stages[k].completed + stages[k].spawned)
    ensures stages[k].completed == 0 ==> Normalised(stages, k) == 0.0
  {
    hide Scaled;
    hide Rescaled;
    var here, next := stages[k], stages[k + 1];
    FactorIsPositive(stages, k);
    FactorIsPositive(stages, k + 1);
    ScaledIsMonotonic(next.completed, here.completed + here.spawned, Factor(stages, k + 1));
    ScaledIsMonotonic(0, here.completed, Factor(stages, k));
    if here.completed > 0 {
      RescaledFacts(Factor(stages, k), here);
    }
  }

  /** Every normalised count is at most the input, with equality exactly when all stages so far have kept up. */
  lemma {:induction false} NormalisedBound(stages: seq<Stage>, inputLength: nat, k: nat)
    requires Plausible(stages, inputLength) && k < |stages| && inputLength > 0
    ensures 0.0 <= Normalised(stages, k) <= inputLength as real
    ensures Normalised(stages, k) == inputLength as real <==> Complete(stages[..k + 1], inputLength)
  {
    if k == 0 {
      assert stages[..1] == [stages[0]];
    } else {
      hide Normalised;
      hide Plausible;
      NormalisedBound(stages, inputLength, k - 1);
      NormalisedDecreases(stages, inputLength, k - 1);
      CompleteStep(stages, inputLength, k);
      CompleteIsPositive(stages[..k], inputLength, k - 1);
      hide Complete;
    }
  }

  lemma CompleteStep(stages: seq<Stage>, inputLength: nat, k: nat)
    requires 1 <= k < |stages|
    ensures Complete(stages[..k + 1], inputLength) <==>
            Complete(stages[..k], inputLength) && stages[k].completed == stages[k - 1].completed + stages[k - 1].spawned
  {
    var before, now := stages[..k], stages[..k + 1];
    assert now == before + [stages[k]];
    if Complete(now, inputLength) {
      assert now[k - 1 + 1].completed == now[k - 1].completed + now[k - 1].spawned;
      forall j | 0 <= j < |before| - 1
        ensures before[j + 1].completed == before[j].completed + before[j].spawned
      {
        assert now[j + 1].completed == now[j].completed + now[j].spawned;
      }
    }
  }

  lemma {:induction false} CompleteIsPositive(stages: seq<Stage>, inputLength: nat, k: nat)
    requires k < |stages| && inputLength > 0
    ensures Complete(stages, inputLength) ==> stages[k].completed > 0
  {
    if k > 0 {
      CompleteIsPositive(stages, inputLength, k - 1);
    }
  }

  lemma {:induction false} TotalBound(stages: seq<Stage>, inputLength: nat, k: nat)
    requires Plausible(stages, inputLength) && k <= |stages| && inputLength > 0
    ensures 0.0 <= Total(stages, k) <= (inputLength * k) as real
    ensures Total(stages, k) == (inputLength * k) as real <==> Complete(stages[..k], inputLength)
  {
    if k > 0 {
      hide Normalised;
      hide Plausible;
      TotalBound(stages, inputLength, k - 1);
      NormalisedBound(stages, inputLength, k - 1);
      assert inputLength * k == inputLength * (k - 1) + inputLength;
      if k > 1 {
        CompleteStep(stages, inputLength, k - 1);
      } else {
        assert stages[..0] == [];
        assert Complete([], inputLength);
      }
      hide Complete;
    }
  }

  lemma Quotient(part: real, whole: real)
    requires 0.0 <= part <= whole && whole > 0.0
    ensures 0.0 <= part / whole <= 1.0
    ensures part / whole == 1.0 <==> part == whole
  {
  }

  /** For a plausible run progress lies in [0, 1], and is 1 exactly when every stage has finished all it was given. */
  lemma ProgressBound(stages: seq<Stage>, inputLength: nat)
    requires Plausible(stages, inputLength) && stages != [] && inputLength > 0
    ensures inputLength * |stages| > 0
    ensures var progress := Total(stages, |stages|) / (inputLength * |stages|) as real;
            && 0.0 <= progress <= 1.0
            && (progress == 1.0 <==>
              && stages[0].completed == inputLength
              && forall k :: 0 <= k < |stages| - 1 ==>
                stages[k + 1].completed == stages[k].completed + stages[k].spawned)
  {
    hide Plausible;
    hide Total;
    TotalBound(stages, inputLength, |stages|);
    assert stages[..|stages|] == stages;
    assert inputLength * |stages| >= 1;
    Quotient(Total(stages, |stages|), (inputLength * |stages|) as real);
  }

  // ----- partway -----

  /**
   What the normalised completions are: plain completions at the first stage, and behind a stage
   that has completed something they stand to the next stage's completions as they stand, at it,
   to all it has completed and spawned.
   */
  lemma NormalisedMeaning(stages: seq<Stage>, k: nat)
    requires k < |stages|
    ensures Normalised(stages, 0) == stages[0].completed as real
    ensures k + 1 < |stages| && stages[k].completed > 0 ==>
      Normalised(stages, k + 1) * (stages[k].completed + stages[k].spawned) as real
      == Normalised(stages, k) * stages[k + 1].completed as real
  {
    assert Factor(stages, 0) == 1.0;
    if k + 1 < |stages| && stages[k].completed > 0 {
      FactorIsPositive(stages, k);
      RescaledFacts(Factor(stages, k), stages[k]);
      hide Rescaled;
      var f, f' := Factor(stages, k), Factor(stages, k + 1);
      assert f' == Rescaled(f, stages[k]);
      Crossed(stages[k + 1].completed as real, f', (stages[k].completed + stages[k].spawned) as real,
              Scaled(stages[k].completed, f));
    }
  }

  lemma Crossed(next: real, factor: real, given: real, weight: real)
    requires given * factor == weight
    ensures next * factor * given == weight * next
  {
    assert next * factor * given == next * (given * factor);
  }

  /** With the first k stages complete and nothing completed behind them, progress is k shares of all stages. */
  lemma PartwayProgress(stages: seq<Stage>, inputLength: nat, k: nat)
    requires Plausible(stages, inputLength) && 0 < k <= |stages| && inputLength > 0
    requires Complete(stages[..k], inputLength)
    requires forall j :: k <= j < |stages| ==> stages[j].completed == 0
    ensures inputLength * |stages| > 0
    ensures Total(stages, |stages|) / (inputLength * |stages|) as real == k as real / |stages| as real
  {
    hide Total;
    hide Plausible;
    hide Complete;
    TotalBound(stages, inputLength, k);
    IdleStagesAddNothing(stages, k, |stages|);
    Cancel(Total(stages, |stages|), inputLength, k, |stages|);
  }

  lemma {:induction false} IdleStagesAddNothing(stages: seq<Stage>, k: nat, n: nat)
    requires k <= n <= |stages|
    requires forall j :: k <= j < |stages| ==> stages[j].completed == 0
    ensures Total(stages, n) == Total(stages, k)
  {
    if k < n {
      IdleStagesAddNothing(stages, k, n - 1);
      hide Factor;
      assert Normalised(stages, n - 1) == 0.0 * Factor(stages, n - 1) == 0.0;
    }
  }

  lemma Cancel(total: real, a: nat, k: nat, n: nat)
    requires a > 0 && n > 0 && total == (a * k) as real
    ensures a * n > 0 && total / (a * n) as real == k as real / n as real
  {
    var share := k as real / n as real;
    ShareFacts(k as real, n as real);
    Product(a, n);
    Product(a, k);
    assert total == share * (a * n) as real;
  }

  lemma Product(a: nat, b: nat)
    ensures (a * b) as real == a as real * b as real
    ensures a > 0 && b > 0 ==> a * b > 0
  {
  }
}
