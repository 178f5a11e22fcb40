/**
 * The Gabriel cluster of Ophanion (ophanion-main/src/gabriel_cell.rs): a
 * vector of Gabriel cells with nearest-cell search, in-place learning
 * updates, Hebbian connection updates, decay, and coherence metrics.
 *
 * The lock around the vector is not modelled: the cells are a sequence
 * field that the mutating methods reassign.
 */
module GabrielClusters {
  import opened Numerics
  import opened IndexSort
  import opened OphanionCore
  import opened OphanionConfig

  /** Strength gained per learning update. */
  const STRENGTH_STEP: real := 0.01

  /** Strength above which a cell counts as active. */
  const ACTIVE_STRENGTH: real := 0.1

  /** Every centroid has dimension `dim`. */
  predicate HasDim(cells: seq<GabrielCell>, dim: nat)
  {
    forall k :: 0 <= k < |cells| ==> |cells[k].centroid| == dim
  }

  /** Cell k has id k, as `new` builds them. */
  predicate IndexedIds(cells: seq<GabrielCell>)
  {
    forall k :: 0 <= k < |cells| ==> cells[k].id == k
  }

  /** Every covariance is positive, so the Gaussian kernel is defined. */
  predicate PositiveCovariances(cells: seq<GabrielCell>)
  {
    forall k :: 0 <= k < |cells| ==> cells[k].covariance > 0.0
  }

  /** Every strength lies in [0, 1]. */
  predicate UnitStrengths(cells: seq<GabrielCell>)
  {
    forall k :: 0 <= k < |cells| ==> 0.0 <= cells[k].resonanceStrength <= 1.0
  }

  /** The strengths of the cells, in order. */
  function Strengths(cells: seq<GabrielCell>): (s: seq<real>)
    ensures |s| == |cells| && forall k :: 0 <= k < |cells| ==> s[k] == cells[k].resonanceStrength
  {
    seq(|cells|, k requires 0 <= k < |cells| => cells[k].resonanceStrength)
  }

  /** The distance of every cell to the signature. */
  function Distances(cells: seq<GabrielCell>, signature: seq<real>, sqrt: real -> real): (d: seq<real>)
    requires HasDim(cells, |signature|) && IsSqrt(sqrt)
    ensures |d| == |cells|
    ensures forall k :: 0 <= k < |cells| ==> d[k] == DistanceTo(cells[k], signature, sqrt) && d[k] >= 0.0
  {
    seq(|cells|, k requires 0 <= k < |cells| => DistanceTo(cells[k], signature, sqrt))
  }

  /**
   * A learning update of one cell: blend the centroid by `alpha` and add
   * `boost` to the strength, capped at 1.
   */
  function Reinforce(c: GabrielCell, signature: seq<real>, alpha: real, boost: real): (r: GabrielCell)
    requires |c.centroid| == |signature|
    ensures r == UpdateCentroid(c, signature, alpha).(resonanceStrength := Min(c.resonanceStrength + boost, 1.0))
    ensures r.id == c.id && |r.centroid| == |c.centroid| && r.connections == c.connections && r.covariance == c.covariance
    ensures r.resonanceStrength <= 1.0
    ensures boost >= 0.0 && c.resonanceStrength <= 1.0 ==> r.resonanceStrength >= c.resonanceStrength
    ensures boost > 0.0 && c.resonanceStrength < 1.0 ==> r.resonanceStrength > c.resonanceStrength
    ensures boost >= 0.0 && 0.0 <= c.resonanceStrength <= 1.0 ==> 0.0 <= r.resonanceStrength <= 1.0
  {
    var u := UpdateCentroid(c, signature, alpha);
    u.(resonanceStrength := Min(u.resonanceStrength + boost, 1.0))
  }

  /** The weight of the i-th update, 1.0 when the weights run out. */
  function WeightAt(weights: seq<real>, i: nat): real
  {
    if i < |weights| then weights[i] else 1.0
  }

  /** One step of `update_cells`: an id out of range is skipped. */
  function UpdateStep(cells: seq<GabrielCell>, id: nat, signature: seq<real>, alpha: real, weight: real): (r: seq<GabrielCell>)
    requires HasDim(cells, |signature|)
    ensures |r| == |cells| && HasDim(r, |signature|)
    ensures forall k :: 0 <= k < |cells| ==>
              r[k].id == cells[k].id && r[k].connections == cells[k].connections && r[k].covariance == cells[k].covariance
    ensures forall k :: 0 <= k < |cells| && k != id ==> r[k] == cells[k]
  {
    if id < |cells| then cells[id := Reinforce(cells[id], signature, alpha * weight, STRENGTH_STEP * weight)]
    else cells
  }

  /** The cells after the first n updates of `update_cells`, in order. */
  function ApplyUpdates(cells: seq<GabrielCell>, ids: seq<nat>, signature: seq<real>, weights: seq<real>, alpha: real, n: nat)
    : (r: seq<GabrielCell>)
    requires HasDim(cells, |signature|) && n <= |ids|
    ensures |r| == |cells| && HasDim(r, |signature|)
    ensures forall k :: 0 <= k < |cells| ==>
              r[k].id == cells[k].id && r[k].connections == cells[k].connections && r[k].covariance == cells[k].covariance
  {
    if n == 0 then cells
    else UpdateStep(ApplyUpdates(cells, ids, signature, weights, alpha, n - 1), ids[n - 1], signature, alpha, WeightAt(weights, n - 1))
  }

  /** The loop of `update_cells` over a copy of the cells. */
  method RunUpdates(start: seq<GabrielCell>, ids: seq<nat>, signature: seq<real>, weights: seq<real>, alpha: real)
    returns (cells: seq<GabrielCell>)
    requires HasDim(start, |signature|)
    ensures cells == ApplyUpdates(start, ids, signature, weights, alpha, |ids|)
  {
    cells := start;
    var i := 0;
    while i < |ids|
      invariant 0 <= i <= |ids|
      invariant cells == ApplyUpdates(start, ids, signature, weights, alpha, i)
      invariant HasDim(cells, |signature|)
    {
      assert ApplyUpdates(start, ids, signature, weights, alpha, i + 1)
             == UpdateStep(cells, ids[i], signature, alpha, WeightAt(weights, i));
      cells := UpdateStep(cells, ids[i], signature, alpha, WeightAt(weights, i));
      i := i + 1;
    }
  }

  /** `update_cells` leaves every cell whose index is not among the ids as it was. */
  lemma {:induction false} ApplyUpdatesTouchesOnlyIds(cells: seq<GabrielCell>, ids: seq<nat>, signature: seq<real>,
                                                     weights: seq<real>, alpha: real, n: nat)
    requires HasDim(cells, |signature|) && n <= |ids|
    ensures forall j :: 0 <= j < |cells| && j !in ids[..n] ==> ApplyUpdates(cells, ids, signature, weights, alpha, n)[j] == cells[j]
  {
    if n > 0 {
      ApplyUpdatesTouchesOnlyIds(cells, ids, signature, weights, alpha, n - 1);
      assert forall j :: j in ids[..n - 1] ==> j in ids[..n];
      assert ids[n - 1] in ids[..n];
    }
  }

  /**
   * With non-negative weights, strengths in [0, 1] stay there and none
   * decreases.
   */
  lemma {:induction false} ApplyUpdatesRaisesStrengths(cells: seq<GabrielCell>, ids: seq<nat>, signature: seq<real>,
                                                      weights: seq<real>, alpha: real, n: nat)
    requires HasDim(cells, |signature|) && n <= |ids| && UnitStrengths(cells)
    requires forall k :: 0 <= k < |weights| ==> weights[k] >= 0.0
    ensures var r := ApplyUpdates(cells, ids, signature, weights, alpha, n);
            UnitStrengths(r) && forall k :: 0 <= k < |cells| ==> r[k].resonanceStrength >= cells[k].resonanceStrength
  {
    if n > 0 {
      ApplyUpdatesRaisesStrengths(cells, ids, signature, weights, alpha, n - 1);
      var w := WeightAt(weights, n - 1);
      MulNonneg(STRENGTH_STEP, w);
    }
  }

  /** Every cell's links to the cells after it: the cell-by-cell result of `update_connections`. */
  function ConnectForward(cells: seq<GabrielCell>, alpha: real, beta: real): (r: seq<GabrielCell>)
    ensures |r| == |cells|
    ensures forall i :: 0 <= i < |cells| ==> r[i] == ConnectAll(cells[i], cells[i + 1..], alpha, beta)
  {
    seq(|cells|, i requires 0 <= i < |cells| => ConnectAll(cells[i], cells[i + 1..], alpha, beta))
  }

  /**
   * The loop of `update_connections` over a copy of the cells: cell i is
   * linked against the cells after it, which still hold their old values.
   */
  method ConnectCells(start: seq<GabrielCell>, alpha: real, beta: real) returns (cells: seq<GabrielCell>)
    ensures cells == ConnectForward(start, alpha, beta)
  {
    cells := start;
    var i := 0;
    while i < |cells|
      invariant 0 <= i <= |cells| == |start|
      invariant forall k :: 0 <= k < i ==> cells[k] == ConnectAll(start[k], start[k + 1..], alpha, beta)
      invariant cells[i..] == start[i..]
    {
      assert cells[i + 1..] == start[i + 1..] by {
        assert cells[i..][1..] == cells[i + 1..] && start[i..][1..] == start[i + 1..];
      }
      assert cells[i] == cells[i..][0];
      var u := OphanionCore.UpdateConnections(cells[i], cells[i + 1..], alpha, beta);
      cells := cells[i := u];
      assert cells[i + 1..] == start[i + 1..];
      i := i + 1;
    }
  }

  /** The ids after index i, when ids are indices. */
  lemma LaterIds(cells: seq<GabrielCell>, i: nat, others: seq<GabrielCell>)
    requires IndexedIds(cells) && i < |cells| && others == cells[i + 1..]
    ensures forall x: nat :: x in OtherIds(cells[i], others) <==> i < x < |cells|
  {
    forall x | x in OtherIds(cells[i], others)
      ensures i < x < |cells|
    {
      var k :| 0 <= k < |others| && others[k].id != cells[i].id && others[k].id == x;
      assert others[k] == cells[i + 1 + k];
    }
    forall x | i < x < |cells|
      ensures x in OtherIds(cells[i], others)
    {
      assert others[x - i - 1] == cells[x];
    }
  }

  /**
   * `update_connections` links cell i only to the cells after it: its
   * connection ids become the old ones plus exactly the indices above i,
   * and they stay unique.
   */
  lemma ConnectForwardLinksLaterCells(cells: seq<GabrielCell>, alpha: real, beta: real, i: nat)
    requires IndexedIds(cells) && i < |cells| && UniqueIds(cells[i].connections)
    ensures UniqueIds(ConnectForward(cells, alpha, beta)[i].connections)
    ensures forall x: nat :: x in ConnectionIds(ConnectForward(cells, alpha, beta)[i].connections)
                        <==> x in ConnectionIds(cells[i].connections) || i < x < |cells|
  {
    var c := ConnectAll(cells[i], cells[i + 1..], alpha, beta);
    assert ConnectForward(cells, alpha, beta)[i] == c;
    ConnectAllIds(cells[i], cells[i + 1..], alpha, beta);
    LaterIds(cells, i, cells[i + 1..]);
  }

  /** A cell scaled by the decay factor. */
  function Decayed(c: GabrielCell, factor: real): (r: GabrielCell)
    ensures r.id == c.id && r.centroid == c.centroid && r.covariance == c.covariance && r.connections == c.connections
    ensures 0.0 <= factor <= 1.0 && 0.0 <= c.resonanceStrength <= 1.0 ==>
              0.0 <= r.resonanceStrength <= c.resonanceStrength
  {
    assert 0.0 <= factor <= 1.0 && 0.0 <= c.resonanceStrength <= 1.0 ==>
             0.0 <= c.resonanceStrength * factor <= c.resonanceStrength by {
      if 0.0 <= factor <= 1.0 && 0.0 <= c.resonanceStrength <= 1.0 {
        MulNonneg(c.resonanceStrength, factor);
        MulNonneg(c.resonanceStrength, 1.0 - factor);
      }
    }
    c.(resonanceStrength := c.resonanceStrength * factor)
  }

  /** The mean strength: `global_coherence`. */
  function MeanStrength(cells: seq<GabrielCell>): (r: real)
    requires |cells| > 0
    ensures r * |cells| as real == Sum(Strengths(cells))
    ensures UnitStrengths(cells) ==> 0.0 <= r <= 1.0
  {
    assert UnitStrengths(cells) ==> 0.0 <= Sum(Strengths(cells)) <= |cells| as real by {
      if UnitStrengths(cells) {
        SumBounds(Strengths(cells), 0.0, 1.0);
      }
    }
    Sum(Strengths(cells)) / |cells| as real
  }

  /** Every cell decayed by the factor. */
  function Decay(cells: seq<GabrielCell>, factor: real): (r: seq<GabrielCell>)
    ensures |r| == |cells| && forall k :: 0 <= k < |cells| ==> r[k] == Decayed(cells[k], factor)
  {
    seq(|cells|, k requires 0 <= k < |cells| => Decayed(cells[k], factor))
  }

  /** Decay scales the total strength by the factor. */
  lemma DecayScalesTotal(cells: seq<GabrielCell>, factor: real)
    ensures Sum(Strengths(Decay(cells, factor))) == Sum(Strengths(cells)) * factor
  {
    var s := Strengths(cells);
    var t := Strengths(Decay(cells, factor));
    assert forall k :: 0 <= k < |s| ==> t[k] == s[k] * factor;
    SumScaled(s, t, factor);
  }

  /** Cells whose total strength is another's scaled by f have the mean strength scaled by f. */
  lemma MeanOfScaledTotal(cells: seq<GabrielCell>, scaled: seq<GabrielCell>, f: real)
    requires |cells| > 0 && |scaled| == |cells|
    requires Sum(Strengths(scaled)) == Sum(Strengths(cells)) * f
    ensures MeanStrength(scaled) == MeanStrength(cells) * f
  {
    var n := |cells| as real;
    var t := Sum(Strengths(cells));
    assert MeanStrength(scaled) == Sum(Strengths(scaled)) / |scaled| as real;
    QuotientCongruent(Sum(Strengths(scaled)), t * f, |scaled| as real, n);
    assert MeanStrength(cells) == t / n;
    QuotientScales(t, n, f);
  }

  /** Decay scales the mean strength by the factor. */
  lemma DecayScalesCoherence(cells: seq<GabrielCell>, factor: real)
    requires |cells| > 0
    ensures MeanStrength(Decay(cells, factor)) == MeanStrength(cells) * factor
  {
    DecayScalesTotal(cells, factor);
    MeanOfScaledTotal(cells, Decay(cells, factor), factor);
  }

  /** A factor below 1 strictly lowers a positive mean strength, as the source's decay test expects. */
  lemma DecayLowersPositiveCoherence(cells: seq<GabrielCell>, factor: real)
    requires |cells| > 0 && 0.0 <= factor < 1.0 && MeanStrength(cells) > 0.0
    ensures MeanStrength(Decay(cells, factor)) < MeanStrength(cells)
  {
    DecayScalesCoherence(cells, factor);
    MulPos(MeanStrength(cells), 1.0 - factor);
  }

  /**
   * The first min(k, n) indices in stable ascending order of the
   * distances: distinct, ordered, and none left out is nearer than one taken.
   */
  function NearestK(d: seq<real>, k: nat): (ids: seq<nat>)
    ensures |ids| == if k <= |d| then k else |d|
    ensures forall a :: 0 <= a < |ids| ==> ids[a] < |d|
    ensures forall a, b :: 0 <= a < b < |ids| ==> ids[a] != ids[b]
    ensures Ordered(d, ids)
    ensures forall a, y: nat :: 0 <= a < |ids| && y < |d| && y !in ids ==> d[ids[a]] <= d[y]
    ensures forall a, y: nat :: 0 <= a < |ids| && y < |d| && y !in ids && d[y] == d[ids[a]] ==> ids[a] < y
  {
    var n := |d|;
    var m := if k <= n then k else n;
    var sorted := SortIndices(d, n);
    OrderedDistinct(d, sorted);
    var ids := sorted[..m];
    forall a, y: nat | 0 <= a < |ids| && y < n && y !in ids
      ensures d[ids[a]] <= d[y]
      ensures d[y] == d[ids[a]] ==> ids[a] < y
    {
      PrefixHoldsSmallest(d, n, m, a, y);
    }
    ids
  }

  datatype ClusterStatistics = ClusterStatistics(
    meanStrength: real,
    variance: real,
    stdDev: real,
    activeCells: nat,
    totalCells: nat)

  /** Squared deviations of the strengths from a mean. */
  function Deviations(s: seq<real>, mean: real): (d: seq<real>)
    ensures |d| == |s| && forall k :: 0 <= k < |s| ==> d[k] == s[k] - mean
  {
    seq(|s|, k requires 0 <= k < |s| => s[k] - mean)
  }

  class GabrielCluster {
    var cells: seq<GabrielCell>
    const config: OphanionSettings
    const sqrt: real -> real

    /** Every centroid has the configured dimension, cell k has id k, and covariances are positive. */
    ghost predicate Valid()
      reads this
    {
      IsSqrt(sqrt) && HasDim(cells, config.spectralDim) && IndexedIds(cells) && PositiveCovariances(cells)
    }

    /** `new`: cells 0..n-1, each a fresh cell of the configured dimension. */
    constructor (config: OphanionSettings, sqrt: real -> real)
      requires IsSqrt(sqrt)
      ensures Valid()
      ensures |cells| == config.numGabrielCells
      ensures forall k :: 0 <= k < |cells| ==> cells[k] == NewCell(k, config.spectralDim)
      ensures this.config == config && this.sqrt == sqrt
    {
      this.config := config;
      this.sqrt := sqrt;
      cells := seq(config.numGabrielCells, k requires 0 <= k < config.numGabrielCells => NewCell(k, config.spectralDim));
    }

    /**
     * `find_nearest`: the first index of smallest distance (`min_by` keeps
     * the first of equal minima), and 0 for an empty cluster.
     */
    function FindNearest(signature: seq<real>): (i: nat)
      requires Valid() && |signature| == config.spectralDim
      reads this
      ensures |cells| == 0 ==> i == 0
      ensures |cells| > 0 ==>
                i < |cells|
                && (forall k :: 0 <= k < |cells| ==> DistanceTo(cells[i], signature, sqrt) <= DistanceTo(cells[k], signature, sqrt))
                && (forall k :: 0 <= k < i ==> DistanceTo(cells[i], signature, sqrt) < DistanceTo(cells[k], signature, sqrt))
    {
      FirstMinIndex(Distances(cells, signature, sqrt))
    }

    /**
     * `find_k_nearest`: min(k, n) distinct indices in non-decreasing
     * distance, ties in index order (the sort is stable), and no index left
     * out is nearer than one taken.
     */
    function FindKNearest(signature: seq<real>, k: nat): (ids: seq<nat>)
      requires Valid() && |signature| == config.spectralDim
      reads this
      ensures |ids| == if k <= |cells| then k else |cells|
      ensures forall a :: 0 <= a < |ids| ==> ids[a] < |cells|
      ensures forall a, b :: 0 <= a < b < |ids| ==> ids[a] != ids[b]
      ensures Ordered(Distances(cells, signature, sqrt), ids)
      ensures forall a, y: nat :: 0 <= a < |ids| && y < |cells| && y !in ids ==>
                Distances(cells, signature, sqrt)[ids[a]] <= Distances(cells, signature, sqrt)[y]
    {
      NearestK(Distances(cells, signature, sqrt), k)
    }

    /**
     * `update_cell`: the cell with that index is blended with learning rate
     * alpha and gains 0.01 strength (capped at 1); an index out of range
     * changes nothing.
     */
    method UpdateCell(cellId: nat, signature: seq<real>)
      requires Valid() && |signature| == config.spectralDim
      modifies this
      ensures Valid()
      ensures cells == UpdateStep(old(cells), cellId, signature, config.learningRateAlpha, 1.0)
    {
      if cellId < |cells| {
        var c := UpdateCentroid(cells[cellId], signature, config.learningRateAlpha);
        c := c.(resonanceStrength := c.resonanceStrength + STRENGTH_STEP);
        c := c.(resonanceStrength := Min(c.resonanceStrength, 1.0));
        cells := cells[cellId := c];
      }
    }

    /**
     * `update_cells`: the listed cells in turn, the i-th with learning rate
     * alpha * weights[i] and strength gain 0.01 * weights[i] (weight 1.0
     * past the end of the weights); ids out of range are skipped.
     */
    method UpdateCells(cellIds: seq<nat>, signature: seq<real>, weights: seq<real>)
      requires Valid() && |signature| == config.spectralDim
      modifies this
      ensures Valid()
      ensures cells == ApplyUpdates(old(cells), cellIds, signature, weights, config.learningRateAlpha, |cellIds|)
    {
      cells := RunUpdates(cells, cellIds, signature, weights, config.learningRateAlpha);
    }

    /**
     * `update_connections`: cell i is linked against the cells after it,
     * which the loop has not reached yet and so still hold their old
     * values.
     */
    method UpdateConnections()
      requires Valid()
      modifies this
      ensures Valid()
      ensures cells == ConnectForward(old(cells), config.learningRateAlpha, config.decayRateBeta)
    {
      cells := ConnectCells(cells, config.learningRateAlpha, config.decayRateBeta);
    }

    /** `apply_decay`: every strength multiplied by the factor. */
    method ApplyDecay(factor: real)
      requires Valid()
      modifies this
      ensures Valid()
      ensures |cells| == |old(cells)|
      ensures cells == Decay(old(cells), factor)
    {
      var k := 0;
      while k < |cells|
        invariant 0 <= k <= |cells| == |old(cells)|
        invariant forall j :: 0 <= j < k ==> cells[j] == Decayed(old(cells)[j], factor)
        invariant forall j :: k <= j < |cells| ==> cells[j] == old(cells)[j]
      {
        cells := cells[k := Decayed(cells[k], factor)];
        k := k + 1;
      }
    }

    /**
     * `global_coherence`: the mean strength, in [0, 1] when every strength
     * is (the source divides by the cell count, so it needs a cell).
     */
    function GlobalCoherence(): (r: real)
      requires |cells| > 0
      reads this
      ensures r * |cells| as real == Sum(Strengths(cells))
      ensures UnitStrengths(cells) ==> 0.0 <= r <= 1.0
    {
      MeanStrength(cells)
    }

    /**
     * `weighted_coherence`: sum of squared strengths over the sum of
     * strengths, 0 when the strengths sum to 0; for strengths in [0, 1] it
     * lies in [0, 1].
     */
    function WeightedCoherence(): (r: real)
      reads this
      ensures Sum(Strengths(cells)) == 0.0 ==> r == 0.0
      ensures Sum(Strengths(cells)) != 0.0 ==> r * Sum(Strengths(cells)) == SumSq(Strengths(cells))
      ensures UnitStrengths(cells) ==> 0.0 <= r <= 1.0
    {
      var s := Strengths(cells);
      var total := Sum(s);
      if total == 0.0 then 0.0
      else
        assert UnitStrengths(cells) ==> 0.0 <= SumSq(s) <= total by {
          if UnitStrengths(cells) {
            SumSqAtMostSum(s);
          }
        }
        SumSq(s) / total
    }

    /**
     * `statistics`: the mean strength and its variance and deviation, the
     * number of cells above 0.1 and the number of cells.
     */
    function Statistics(): (st: ClusterStatistics)
      requires |cells| > 0 && IsSqrt(sqrt)
      reads this
      ensures st.meanStrength == GlobalCoherence()
      ensures st.variance >= 0.0 && st.stdDev >= 0.0
      ensures st.variance * |cells| as real == SumSq(Deviations(Strengths(cells), st.meanStrength))
      ensures st.activeCells == CountAbove(Strengths(cells), ACTIVE_STRENGTH)
      ensures st.activeCells <= st.totalCells && st.totalCells == |cells|
    {
      var s := Strengths(cells);
      var mean := MeanStrength(cells);
      var variance := SumSq(Deviations(s, mean)) / |s| as real;
      ClusterStatistics(mean, variance, sqrt(variance), CountAbove(s, ACTIVE_STRENGTH), |cells|)
    }
  }
}
