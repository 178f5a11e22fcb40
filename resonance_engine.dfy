/**
 * The resonance engine of Ophanion (ophanion-main/src/resonance.rs): the
 * strength-weighted Gaussian resonance score of a signature against the
 * Gabriel cells, the learning rules that move the nearest cell(s) towards
 * a signature, and the periodic maintenance cycle.
 */
module Resonance {
  import opened Numerics
  import opened OphanionCore
  import opened OphanionConfig
  import opened GabrielClusters

  /** Decay applied by every maintenance cycle. */
  const MAINTENANCE_DECAY: real := 0.99

  /** Added to a distance before it is inverted into a weight. */
  const DISTANCE_EPSILON: real := 0.0000000001

  /** The Gaussian kernel exp(-d^2 / (2 cov)): in (0, 1] for a positive covariance. */
  function Kernel(c: GabrielCell, d: real, exp: real -> real): (r: real)
    requires c.covariance > 0.0 && IsExp(exp)
    ensures 0.0 < r <= 1.0
  {
    SquareNonneg(d);
    assert (d * d) / (2.0 * c.covariance) >= 0.0;
    exp(-(d * d) / (2.0 * c.covariance))
  }

  /** What a cell adds to the score total: its strength times its kernel. */
  function Term(c: GabrielCell, signature: seq<real>, sqrt: real -> real, exp: real -> real): real
    requires |c.centroid| == |signature| && c.covariance > 0.0 && IsSqrt(sqrt) && IsExp(exp)
  {
    c.resonanceStrength * Kernel(c, DistanceTo(c, signature, sqrt), exp)
  }

  /** The precondition shared by the score functions. */
  ghost predicate Scorable(cells: seq<GabrielCell>, signature: seq<real>, sqrt: real -> real, exp: real -> real)
  {
    HasDim(cells, |signature|) && PositiveCovariances(cells) && IsSqrt(sqrt) && IsExp(exp)
  }

  /** The score total over the listed cells, ids out of range skipped. */
  function TotalScore(cells: seq<GabrielCell>, ids: seq<nat>, signature: seq<real>, sqrt: real -> real, exp: real -> real): real
    requires Scorable(cells, signature, sqrt, exp)
  {
    if |ids| == 0 then 0.0
    else
      var id := ids[|ids| - 1];
      TotalScore(cells, ids[..|ids| - 1], signature, sqrt, exp) + (if id < |cells| then Term(cells[id], signature, sqrt, exp) else 0.0)
  }

  /** The weight total over the listed cells: their strengths. */
  function TotalWeight(cells: seq<GabrielCell>, ids: seq<nat>): real
  {
    if |ids| == 0 then 0.0
    else
      var id := ids[|ids| - 1];
      TotalWeight(cells, ids[..|ids| - 1]) + (if id < |cells| then cells[id].resonanceStrength else 0.0)
  }

  /** The weighted mean: total score over total weight, 0 unless the weight is positive. */
  function WeightedMean(total: real, weight: real): real
  {
    if weight > 0.0 then total / weight else 0.0
  }

  /** The resonance score of a signature against the listed cells. */
  function ScoreOver(cells: seq<GabrielCell>, ids: seq<nat>, signature: seq<real>, sqrt: real -> real, exp: real -> real): real
    requires Scorable(cells, signature, sqrt, exp)
  {
    WeightedMean(TotalScore(cells, ids, signature, sqrt, exp), TotalWeight(cells, ids))
  }

  /** Extending the listed ids by one adds that cell's term and strength, if the id is in range. */
  lemma TotalsPrefixStep(cells: seq<GabrielCell>, ids: seq<nat>, i: nat, signature: seq<real>, sqrt: real -> real, exp: real -> real)
    requires Scorable(cells, signature, sqrt, exp) && i < |ids|
    ensures TotalScore(cells, ids[..i + 1], signature, sqrt, exp)
            == TotalScore(cells, ids[..i], signature, sqrt, exp) + (if ids[i] < |cells| then Term(cells[ids[i]], signature, sqrt, exp) else 0.0)
    ensures TotalWeight(cells, ids[..i + 1])
            == TotalWeight(cells, ids[..i]) + (if ids[i] < |cells| then cells[ids[i]].resonanceStrength else 0.0)
  {
    assert ids[..i + 1][..i] == ids[..i];
  }

  /** The loop of `compute_score` over every cell, in index order. */
  method ScoreOfAll(cells: seq<GabrielCell>, signature: seq<real>, sqrt: real -> real, exp: real -> real)
    returns (score: real)
    requires Scorable(cells, signature, sqrt, exp)
    ensures score == ScoreOver(cells, AllIndices(|cells|), signature, sqrt, exp)
    ensures NonNegStrengths(cells) ==> 0.0 <= score <= 1.0
  {
    ghost var ids := AllIndices(|cells|);
    var totalScore := 0.0;
    var totalWeight := 0.0;
    var k := 0;
    while k < |cells|
      invariant 0 <= k <= |cells|
      invariant totalScore == TotalScore(cells, ids[..k], signature, sqrt, exp)
      invariant totalWeight == TotalWeight(cells, ids[..k])
    {
      TotalsPrefixStep(cells, ids, k, signature, sqrt, exp);
      var cell := cells[k];
      totalScore := totalScore + Term(cell, signature, sqrt, exp);
      totalWeight := totalWeight + cell.resonanceStrength;
      k := k + 1;
    }
    assert ids[..k] == ids;
    score := if totalWeight > 0.0 then totalScore / totalWeight else 0.0;
    if NonNegStrengths(cells) {
      ScoreInUnitInterval(cells, ids, signature, sqrt, exp);
    }
  }

  /** The loop of `compute_score_knn` over the listed cells, skipping ids out of range. */
  method ScoreOfIds(cells: seq<GabrielCell>, ids: seq<nat>, signature: seq<real>, sqrt: real -> real, exp: real -> real)
    returns (score: real)
    requires Scorable(cells, signature, sqrt, exp)
    ensures score == ScoreOver(cells, ids, signature, sqrt, exp)
    ensures NonNegStrengths(cells) ==> 0.0 <= score <= 1.0
  {
    var totalScore := 0.0;
    var totalWeight := 0.0;
    var i := 0;
    while i < |ids|
      invariant 0 <= i <= |ids|
      invariant totalScore == TotalScore(cells, ids[..i], signature, sqrt, exp)
      invariant totalWeight == TotalWeight(cells, ids[..i])
    {
      TotalsPrefixStep(cells, ids, i, signature, sqrt, exp);
      var id := ids[i];
      if id < |cells| {
        totalScore := totalScore + Term(cells[id], signature, sqrt, exp);
        totalWeight := totalWeight + cells[id].resonanceStrength;
      }
      i := i + 1;
    }
    assert ids[..i] == ids;
    score := if totalWeight > 0.0 then totalScore / totalWeight else 0.0;
    if NonNegStrengths(cells) {
      ScoreInUnitInterval(cells, ids, signature, sqrt, exp);
    }
  }

  /** The indices 0..n-1. */
  function AllIndices(n: nat): (r: seq<nat>)
    ensures |r| == n && forall i :: 0 <= i < n ==> r[i] == i
  {
    seq(n, i requires 0 <= i < n => i)
  }

  /** Strengths are non-negative. */
  predicate NonNegStrengths(cells: seq<GabrielCell>)
  {
    forall k :: 0 <= k < |cells| ==> cells[k].resonanceStrength >= 0.0
  }

  /** With non-negative strengths, 0 <= total score <= total weight, since every kernel is in (0, 1]. */
  lemma {:induction false} TotalsBounded(cells: seq<GabrielCell>, ids: seq<nat>, signature: seq<real>, sqrt: real -> real, exp: real -> real)
    requires Scorable(cells, signature, sqrt, exp) && NonNegStrengths(cells)
    ensures 0.0 <= TotalScore(cells, ids, signature, sqrt, exp) <= TotalWeight(cells, ids)
  {
    if |ids| > 0 {
      TotalsBounded(cells, ids[..|ids| - 1], signature, sqrt, exp);
      var id := ids[|ids| - 1];
      if id < |cells| {
        var c := cells[id];
        var kern := Kernel(c, DistanceTo(c, signature, sqrt), exp);
        MulNonneg(c.resonanceStrength, kern);
        MulNonneg(c.resonanceStrength, 1.0 - kern);
      }
    }
  }

  /** With non-negative strengths the score lies in [0, 1]. */
  lemma ScoreInUnitInterval(cells: seq<GabrielCell>, ids: seq<nat>, signature: seq<real>, sqrt: real -> real, exp: real -> real)
    requires Scorable(cells, signature, sqrt, exp) && NonNegStrengths(cells)
    ensures 0.0 <= ScoreOver(cells, ids, signature, sqrt, exp) <= 1.0
  {
    TotalsBounded(cells, ids, signature, sqrt, exp);
  }

  /** When every strength is 0, as in a fresh cluster, the score is 0 whatever the signature. */
  lemma {:induction false} ZeroStrengthsScoreZero(cells: seq<GabrielCell>, ids: seq<nat>, signature: seq<real>, sqrt: real -> real, exp: real -> real)
    requires Scorable(cells, signature, sqrt, exp)
    requires forall k :: 0 <= k < |cells| ==> cells[k].resonanceStrength == 0.0
    ensures TotalWeight(cells, ids) == 0.0
    ensures ScoreOver(cells, ids, signature, sqrt, exp) == 0.0
  {
    if |ids| > 0 {
      ZeroStrengthsScoreZero(cells, ids[..|ids| - 1], signature, sqrt, exp);
    }
  }

  /** The inverse-distance weight of one listed cell, 0 for an id out of range. */
  function InverseDistance(cells: seq<GabrielCell>, id: nat, signature: seq<real>, sqrt: real -> real): (w: real)
    requires HasDim(cells, |signature|) && IsSqrt(sqrt)
    ensures id < |cells| ==> w > 0.0
    ensures id >= |cells| ==> w == 0.0
  {
    if id < |cells| then 1.0 / (DistanceTo(cells[id], signature, sqrt) + DISTANCE_EPSILON) else 0.0
  }

  /** The raw weights of the listed cells, in the order of the ids. */
  function RawWeights(cells: seq<GabrielCell>, ids: seq<nat>, signature: seq<real>, sqrt: real -> real): (w: seq<real>)
    requires HasDim(cells, |signature|) && IsSqrt(sqrt)
    ensures |w| == |ids| && forall i :: 0 <= i < |ids| ==> w[i] == InverseDistance(cells, ids[i], signature, sqrt)
  {
    seq(|ids|, i requires 0 <= i < |ids| => InverseDistance(cells, ids[i], signature, sqrt))
  }

  /** Divide by the sum when it is positive, otherwise the uniform weights 1/len. */
  function Normalize(w: seq<real>): (r: seq<real>)
    ensures |r| == |w|
    ensures Sum(w) > 0.0 ==> forall i :: 0 <= i < |w| ==> r[i] == w[i] / Sum(w)
    ensures Sum(w) <= 0.0 ==> forall i :: 0 <= i < |w| ==> r[i] == 1.0 / |w| as real
  {
    var total := Sum(w);
    if total > 0.0 then seq(|w|, i requires 0 <= i < |w| => w[i] / total)
    else if |w| == 0 then []
    else seq(|w|, i requires 0 <= i < |w| => 1.0 / |w| as real)
  }

  /** Normalised weights of a non-empty list sum to 1. */
  lemma NormalizeSumsToOne(w: seq<real>)
    requires |w| > 0
    ensures Sum(Normalize(w)) == 1.0
  {
    var r := Normalize(w);
    var total := Sum(w);
    if total > 0.0 {
      assert forall i :: 0 <= i < |w| ==> r[i] == w[i] * (1.0 / total);
      SumScaled(w, r, 1.0 / total);
    } else {
      var n := |w| as real;
      SumBounds(r, 1.0 / n, 1.0 / n);
      assert (1.0 / n) * n == 1.0;
    }
  }

  /** The weights `learn_signature_knn` hands to `update_cells`, in the order of the ids. */
  function KnnWeights(cells: seq<GabrielCell>, ids: seq<nat>, signature: seq<real>, sqrt: real -> real): (w: seq<real>)
    requires HasDim(cells, |signature|) && IsSqrt(sqrt)
    ensures |w| == |ids|
  {
    Normalize(RawWeights(cells, ids, signature, sqrt))
  }

  /**
   * For a non-empty list of ids in range the weights are positive, sum to
   * 1, and follow the inverse distances.
   */
  lemma KnnWeightsArePositiveAndSumToOne(cells: seq<GabrielCell>, ids: seq<nat>, signature: seq<real>, sqrt: real -> real)
    requires HasDim(cells, |signature|) && IsSqrt(sqrt)
    requires |ids| > 0 && forall i :: 0 <= i < |ids| ==> ids[i] < |cells|
    ensures Sum(RawWeights(cells, ids, signature, sqrt)) > 0.0
    ensures Sum(KnnWeights(cells, ids, signature, sqrt)) == 1.0
    ensures forall i :: 0 <= i < |ids| ==> KnnWeights(cells, ids, signature, sqrt)[i] > 0.0
    ensures forall i :: 0 <= i < |ids| ==>
              KnnWeights(cells, ids, signature, sqrt)[i]
              == InverseDistance(cells, ids[i], signature, sqrt) / Sum(RawWeights(cells, ids, signature, sqrt))
  {
    var raw := RawWeights(cells, ids, signature, sqrt);
    SumPositive(raw);
    NormalizeSumsToOne(raw);
    var w := KnnWeights(cells, ids, signature, sqrt);
    forall i | 0 <= i < |ids|
      ensures w[i] > 0.0
    {
      Quotient(raw[i], Sum(raw));
    }
  }

  /** One `learn_signature` step strictly raises the mean strength when the nearest cell is below 1. */
  lemma LearnStepRaisesCoherence(cells: seq<GabrielCell>, id: nat, signature: seq<real>, alpha: real)
    requires HasDim(cells, |signature|) && id < |cells| && cells[id].resonanceStrength < 1.0
    ensures MeanStrength(UpdateStep(cells, id, signature, alpha, 1.0)) > MeanStrength(cells)
  {
    var next := UpdateStep(cells, id, signature, alpha, 1.0);
    var s := Strengths(cells);
    var t := Strengths(next);
    var v := next[id].resonanceStrength;
    assert v > s[id] by {
      assert next[id] == Reinforce(cells[id], signature, alpha * 1.0, STRENGTH_STEP * 1.0);
    }
    assert t == s[id := v] by {
      assert forall k :: 0 <= k < |s| && k != id ==> t[k] == s[k];
    }
    SumUpdate(s, id, v);
    DivideStrict(Sum(s), Sum(t), |cells| as real);
  }

  class ResonanceEngine {
    const cluster: GabrielCluster
    const exp: real -> real

    ghost predicate Valid()
      reads this, cluster
    {
      cluster.Valid() && IsExp(exp)
    }

    /** `new`: a fresh cluster for the settings. */
    constructor (config: OphanionSettings, sqrt: real -> real, exp: real -> real)
      requires IsSqrt(sqrt) && IsExp(exp)
      ensures Valid() && fresh(cluster)
      ensures cluster.config == config && cluster.sqrt == sqrt && this.exp == exp
      ensures |cluster.cells| == config.numGabrielCells
      ensures forall k :: 0 <= k < |cluster.cells| ==> cluster.cells[k] == NewCell(k, config.spectralDim)
    {
      cluster := new GabrielCluster(config, sqrt);
      this.exp := exp;
    }

    /**
     * `compute_score`: sum strength * kernel and sum strength over all
     * cells, and divide when the strengths sum to a positive value.
     */
    method ComputeScore(signature: seq<real>) returns (score: real)
      requires Valid() && |signature| == cluster.config.spectralDim
      ensures score == ScoreOver(cluster.cells, AllIndices(|cluster.cells|), signature, cluster.sqrt, exp)
      ensures NonNegStrengths(cluster.cells) ==> 0.0 <= score <= 1.0
    {
      score := ScoreOfAll(cluster.cells, signature, cluster.sqrt, exp);
    }

    /** `compute_score_knn`: the same weighted mean over the k nearest cells only. */
    method ComputeScoreKnn(signature: seq<real>, k: nat) returns (score: real)
      requires Valid() && |signature| == cluster.config.spectralDim
      ensures score == ScoreOver(cluster.cells, cluster.FindKNearest(signature, k), signature, cluster.sqrt, exp)
      ensures NonNegStrengths(cluster.cells) ==> 0.0 <= score <= 1.0
    {
      var ids := cluster.FindKNearest(signature, k);
      score := ScoreOfIds(cluster.cells, ids, signature, cluster.sqrt, exp);
    }

    /** `learn_signature`: exactly the nearest cell is updated. */
    method LearnSignature(signature: seq<real>)
      requires Valid() && |signature| == cluster.config.spectralDim
      modifies cluster
      ensures Valid()
      ensures cluster.cells == UpdateStep(old(cluster.cells), old(cluster.FindNearest(signature)), signature,
                                          cluster.config.learningRateAlpha, 1.0)
    {
      var nearest := cluster.FindNearest(signature);
      cluster.UpdateCell(nearest, signature);
    }

    /**
     * `learn_signature_knn`: the k nearest cells are updated in order,
     * with the normalised inverse-distance weights.
     */
    method LearnSignatureKnn(signature: seq<real>, k: nat)
      requires Valid() && |signature| == cluster.config.spectralDim
      modifies cluster
      ensures Valid()
      ensures var ids := old(cluster.FindKNearest(signature, k));
              cluster.cells == ApplyUpdates(old(cluster.cells), ids, signature,
                                            KnnWeights(old(cluster.cells), ids, signature, cluster.sqrt),
                                            cluster.config.learningRateAlpha, |ids|)
    {
      var ids := cluster.FindKNearest(signature, k);
      var weights := KnnWeights(cluster.cells, ids, signature, cluster.sqrt);
      cluster.UpdateCells(ids, signature, weights);
    }

    /** `maintenance_cycle`: connection update, then decay by 0.99. */
    method MaintenanceCycle()
      requires Valid()
      modifies cluster
      ensures Valid()
      ensures cluster.cells == Decay(ConnectForward(old(cluster.cells), cluster.config.learningRateAlpha,
                                                    cluster.config.decayRateBeta), MAINTENANCE_DECAY)
    {
      cluster.UpdateConnections();
      cluster.ApplyDecay(MAINTENANCE_DECAY);
    }

    /** `coherence`: the cluster's global coherence. */
    function Coherence(): (r: real)
      requires |cluster.cells| > 0
      reads this, cluster
      ensures r == MeanStrength(cluster.cells)
    {
      cluster.GlobalCoherence()
    }
  }

  /**
   * On a fresh engine (every strength 0), any `learn_signature` step
   * strictly raises the coherence.
   */
  lemma FreshLearnRaisesCoherence(cells: seq<GabrielCell>, signature: seq<real>, alpha: real, id: nat)
    requires HasDim(cells, |signature|) && id < |cells|
    requires forall k :: 0 <= k < |cells| ==> cells[k].resonanceStrength == 0.0
    ensures MeanStrength(UpdateStep(cells, id, signature, alpha, 1.0)) > MeanStrength(cells)
  {
    LearnStepRaisesCoherence(cells, id, signature, alpha);
  }
}
