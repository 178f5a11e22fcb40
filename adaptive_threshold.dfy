/**
 * The adaptive threshold of Ophanion (ophanion-main/src/threshold.rs): the
 * learning threshold driven by a coherence / flood-energy gradient, a
 * rolling window of the last 1000 absorb/forward outcomes, and the history
 * of coherence values seen by `update`.
 */
module AdaptiveThresholds {
  import opened Numerics
  import opened OphanionCore
  import opened OphanionConfig

  /** Size of the rolling absorption window. */
  const WINDOW: nat := 1000

  /** Weight of the flood energy in the gradient. */
  const KAPPA: real := 0.2

  /** Tolerance of `has_converged`, fixed in the code. */
  const CONVERGENCE_TOLERANCE: real := 0.05

  /** The gradient of `update`: -coherence + kappa * flood energy. */
  function Gradient(coherence: real, floodEnergy: real): real
  {
    -coherence + KAPPA * floodEnergy
  }

  /** An outcome as it is stored in the window. */
  function Outcome(absorbed: bool): real
  {
    if absorbed then 1.0 else 0.0
  }

  /** The outcomes of a run, as stored values. */
  function Encode(outcomes: seq<bool>): (r: seq<real>)
    ensures |r| == |outcomes|
    ensures forall k :: 0 <= k < |r| ==> r[k] == Outcome(outcomes[k])
  {
    seq(|outcomes|, k requires 0 <= k < |outcomes| => Outcome(outcomes[k]))
  }

  /** Entries are 0 or 1. */
  predicate Binary(h: seq<real>)
  {
    forall k :: 0 <= k < |h| ==> h[k] == 0.0 || h[k] == 1.0
  }

  /** The last `n` entries, or all of them when there are fewer. */
  function Last(s: seq<real>, n: nat): (r: seq<real>)
    ensures |r| == if |s| <= n then |s| else n
  {
    if |s| <= n then s else s[|s| - n..]
  }

  /** One `record_absorption` on the window: push, then drop the oldest beyond 1000. */
  function Record(h: seq<real>, absorbed: bool): (r: seq<real>)
    requires |h| <= WINDOW
    ensures |r| <= WINDOW
    ensures r == Last(h + [Outcome(absorbed)], WINDOW)
    ensures Binary(h) ==> Binary(r)
  {
    var g := h + [Outcome(absorbed)];
    if |g| > WINDOW then g[1..] else g
  }

  /** The window after recording a run of outcomes, one at a time. */
  function RecordAll(h: seq<real>, outcomes: seq<bool>): (r: seq<real>)
    requires |h| <= WINDOW
    ensures |r| <= WINDOW
  {
    if |outcomes| == 0 then h
    else Record(RecordAll(h, outcomes[..|outcomes| - 1]), outcomes[|outcomes| - 1])
  }

  /** Taking the last n after an append only needs the last n before it. */
  lemma LastAppend(x: seq<real>, o: real, n: nat)
    requires n > 0
    ensures Last(Last(x, n) + [o], n) == Last(x + [o], n)
  {
    if |x| > n {
      assert Last(x, n) + [o] == (x + [o])[|x| - n..];
      assert (x + [o])[|x| - n..][1..] == (x + [o])[|x| + 1 - n..];
    }
  }

  /**
   * The window always holds the most recent (at most) 1000 of all values
   * recorded so far, in arrival order.
   */
  lemma {:induction false} WindowKeepsMostRecent(h: seq<real>, outcomes: seq<bool>)
    requires |h| <= WINDOW
    ensures RecordAll(h, outcomes) == Last(h + Encode(outcomes), WINDOW)
  {
    if |outcomes| == 0 {
      assert h + Encode(outcomes) == h;
    } else {
      var pre := outcomes[..|outcomes| - 1];
      var o := outcomes[|outcomes| - 1];
      WindowKeepsMostRecent(h, pre);
      LastAppend(h + Encode(pre), Outcome(o), WINDOW);
      assert h + Encode(outcomes) == (h + Encode(pre)) + [Outcome(o)];
    }
  }

  /** The mean of a window of 0/1 entries, 0 on an empty window. */
  function Mean(h: seq<real>): (r: real)
    requires Binary(h)
    ensures 0.0 <= r <= 1.0
    ensures |h| == 0 ==> r == 0.0
    ensures |h| > 0 ==> r * |h| as real == Sum(h)
  {
    if |h| == 0 then 0.0
    else
      SumBounds(h, 0.0, 1.0);
      Sum(h) / |h| as real
  }

  /** A window of absorptions only has rate 1. */
  lemma {:induction false} AllAbsorbedRateIsOne(h: seq<real>)
    requires |h| > 0 && forall k :: 0 <= k < |h| ==> h[k] == 1.0
    ensures Mean(h) == 1.0
  {
    SumBounds(h, 1.0, 1.0);
  }

  class AdaptiveThreshold {
    const threshold: Threshold
    const config: OphanionSettings
    var absorptionHistory: seq<real>
    var coherenceHistory: seq<real>

    ghost predicate Valid()
      reads this, threshold
    {
      threshold.Valid() && |absorptionHistory| <= WINDOW && Binary(absorptionHistory)
    }

    /** `new`: a threshold from the initial value and rate of the settings, empty histories. */
    constructor (config: OphanionSettings)
      ensures Valid() && fresh(threshold)
      ensures this.config == config
      ensures threshold.value == Clamp(config.initialThreshold, 0.0, 1.0)
      ensures threshold.lambda == Max(config.thresholdLearningRate, 0.0)
      ensures absorptionHistory == [] && coherenceHistory == []
    {
      threshold := new Threshold(config.initialThreshold, config.thresholdLearningRate);
      this.config := config;
      absorptionHistory := [];
      coherenceHistory := [];
    }

    /** `value`: always in [0, 1]. */
    function Value(): (v: real)
      requires Valid()
      reads this, threshold
      ensures 0.0 <= v <= 1.0
    {
      threshold.value
    }

    /**
     * `update`: one threshold step against -coherence + 0.2 flood energy,
     * and the coherence joins its history; the absorption window is not
     * touched.
     */
    method Update(coherence: real, floodEnergy: real)
      requires Valid()
      modifies this, threshold
      ensures Valid()
      ensures threshold.value == ThresholdStep(old(threshold.value), old(threshold.lambda), Gradient(coherence, floodEnergy))
      ensures threshold.lambda == old(threshold.lambda)
      ensures coherenceHistory == old(coherenceHistory) + [coherence]
      ensures absorptionHistory == old(absorptionHistory)
    {
      var gradient := -coherence + KAPPA * floodEnergy;
      threshold.Update(gradient);
      coherenceHistory := coherenceHistory + [coherence];
    }

    /**
     * `record_absorption`: push 1.0 or 0.0 and drop the oldest entry beyond
     * 1000; the threshold is not touched.
     */
    method RecordAbsorption(absorbed: bool)
      requires Valid()
      modifies this
      ensures Valid()
      ensures absorptionHistory == Record(old(absorptionHistory), absorbed)
      ensures coherenceHistory == old(coherenceHistory)
    {
      var history := absorptionHistory + [if absorbed then 1.0 else 0.0];
      if |history| > WINDOW {
        history := history[1..];
      }
      absorptionHistory := history;
    }

    /** `absorption_rate`: the mean of the window, in [0, 1], 0 when empty. */
    function AbsorptionRate(): (r: real)
      requires Valid()
      reads this, threshold
      ensures 0.0 <= r <= 1.0
      ensures absorptionHistory == [] ==> r == 0.0
    {
      Mean(absorptionHistory)
    }

    /**
     * `has_converged`: the rate is within the fixed tolerance 0.05 of the
     * target; `convergence_epsilon` plays no part.
     */
    predicate HasConverged()
      requires Valid()
      reads this, threshold
    {
      Abs(AbsorptionRate() - config.targetAbsorptionRate) < CONVERGENCE_TOLERANCE
    }

    /**
     * A window of absorptions only has rate 1, so it is converged exactly
     * for a target strictly within 0.05 of 1; the default target 0.95 sits
     * on the boundary and, the test being strict, is not converged.
     */
    lemma AllAbsorbedConvergence()
      requires Valid()
      requires |absorptionHistory| > 0 && forall k :: 0 <= k < |absorptionHistory| ==> absorptionHistory[k] == 1.0
      ensures HasConverged() <==> 0.95 < config.targetAbsorptionRate < 1.05
      ensures config == DefaultOphanion() ==> !HasConverged()
    {
      AllAbsorbedRateIsOne(absorptionHistory);
    }

    /** With an empty window the rate is 0, so only a target below 0.05 counts as converged. */
    lemma EmptyWindowConvergence()
      requires Valid() && absorptionHistory == []
      ensures HasConverged() <==> -0.05 < config.targetAbsorptionRate < 0.05
    {
    }
  }
}
