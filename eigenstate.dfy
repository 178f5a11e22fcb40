/**
 * Mandorla regions (the overlap of two information domains) and the
 * Mandorla eigenstate operator that fuses a state with the cached
 * intersections of its regions (thronion/src/mandorla/eigenstate.rs).
 *
 * A region is a value: the operator owns its regions in a vector, so
 * `compute_intersection` on `regions[k]` is modelled as replacing element k
 * by the region with its intersection cached.
 */
module Eigenstate {
  import opened Numerics

  datatype MandorlaRegion = MandorlaRegion(
    center1: QuantumState,
    center2: QuantumState,
    radius: real,
    intersectionState: Option<QuantumState>)

  /** `MandorlaRegion::new`, which asserts a positive radius. */
  function NewRegion(center1: QuantumState, center2: QuantumState, radius: real): (r: MandorlaRegion)
    requires radius > 0.0
    ensures r.center1 == center1 && r.center2 == center2 && r.radius == radius
    ensures r.intersectionState == None
  {
    MandorlaRegion(center1, center2, radius, None)
  }

  /** The intersection state M = normalise(sqrt(F) c1 + sqrt(1 - F) c2), F the fidelity of the centres. */
  function Intersection(r: MandorlaRegion, q: QuantumOps, m: MathFns): QuantumState
  {
    var f := q.fidelity(r.center1, r.center2);
    q.normalize(VAdd(VScale(r.center1.amplitudes, m.sqrt(f)), VScale(r.center2.amplitudes, m.sqrt(1.0 - f))))
  }

  /**
   * `compute_intersection`: returns the intersection state and the region
   * with that state cached; nothing else about the region changes.
   */
  function ComputeIntersection(r: MandorlaRegion, q: QuantumOps, m: MathFns): (res: (MandorlaRegion, QuantumState))
    ensures res.1 == Intersection(r, q, m)
    ensures res.0.intersectionState == Some(res.1)
    ensures res.0.center1 == r.center1 && res.0.center2 == r.center2 && res.0.radius == r.radius
  {
    var s := Intersection(r, q, m);
    (r.(intersectionState := Some(s)), s)
  }

  /** `contains`: the state is within `radius` (in 1 - fidelity) of both centres. */
  predicate Contains(r: MandorlaRegion, s: QuantumState, fid: (QuantumState, QuantumState) -> real)
  {
    1.0 - fid(s, r.center1) <= r.radius && 1.0 - fid(s, r.center2) <= r.radius
  }

  /** A region whose two centres coincide contains its centre (fidelity is reflexive). */
  lemma DegenerateRegionContainsCentre(r: MandorlaRegion, fid: (QuantumState, QuantumState) -> real)
    requires IsFidelity(fid)
    requires r.radius > 0.0 && r.center1 == r.center2
    ensures Contains(r, r.center1, fid)
  {
  }

  /** A radius of at least 1 contains every state, since fidelities are at least 0. */
  lemma WideRegionContainsAll(r: MandorlaRegion, s: QuantumState, fid: (QuantumState, QuantumState) -> real)
    requires IsFidelity(fid)
    requires r.radius >= 1.0
    ensures Contains(r, s, fid)
  {
  }

  /**
   * `project`: onto the cached intersection, scaled by the overlap, or,
   * before any intersection was computed, the normalised centre average.
   */
  function Project(r: MandorlaRegion, s: QuantumState, q: QuantumOps): (p: QuantumState)
    ensures r.intersectionState.None? ==>
              p == q.normalize(VScale(VAdd(r.center1.amplitudes, r.center2.amplitudes), 0.5))
  {
    match r.intersectionState
    case Some(i) => q.normalize(VScaleComplex(i.amplitudes, InnerProduct(s, i)))
    case None => q.normalize(VScale(VAdd(r.center1.amplitudes, r.center2.amplitudes), 0.5))
  }

  /** Without a cached intersection the projection ignores the state being projected. */
  lemma ProjectFallbackIgnoresState(r: MandorlaRegion, s: QuantumState, t: QuantumState, q: QuantumOps)
    requires r.intersectionState.None?
    ensures Project(r, s, q) == Project(r, t, q)
  {
  }

  /** `MandorlaConvolution::convolve`: component-wise product with the cached intersection. */
  function Convolve(r: MandorlaRegion, block: QuantumState, q: QuantumOps): (c: QuantumState)
    ensures r.intersectionState.None? ==> c == block
  {
    match r.intersectionState
    case Some(i) => q.normalize(VMul(i.amplitudes, block.amplitudes))
    case None => block
  }

  /** Number of regions containing the state. */
  function CountContaining(rs: seq<MandorlaRegion>, s: QuantumState, fid: (QuantumState, QuantumState) -> real): (n: nat)
    ensures n <= |rs|
  {
    if |rs| == 0 then 0
    else CountContaining(rs[..|rs| - 1], s, fid) + (if Contains(rs[|rs| - 1], s, fid) then 1 else 0)
  }

  /** Fusion step k: normalise((1 - w) current + w intersection), w = 1/(k + 2). */
  function FuseStep(current: QuantumState, intersection: QuantumState, k: nat, q: QuantumOps): QuantumState
  {
    var w := 1.0 / (k + 2) as real;
    q.normalize(VAdd(VScale(current.amplitudes, 1.0 - w), VScale(intersection.amplitudes, w)))
  }

  /** The fused state after the first `n` fusion steps, the value of `current_state`. */
  function Fuse(initial: QuantumState, rs: seq<MandorlaRegion>, n: nat, q: QuantumOps, m: MathFns): QuantumState
    requires n <= |rs|
  {
    if n == 0 then initial
    else FuseStep(Fuse(initial, rs, n - 1, q, m), Intersection(rs[n - 1], q, m), n - 1, q)
  }

  function MinNat(a: nat, b: nat): nat
  {
    if a <= b then a else b
  }

  /**
   * The loop of `recursive_fusion` over a copy of the regions: it stops
   * after `maxDepth` steps or at the last region, caching each visited
   * region's intersection and fusing the state with it.
   */
  method FuseRegions(rs: seq<MandorlaRegion>, initial: QuantumState, maxDepth: nat, q: QuantumOps, m: MathFns)
    returns (updated: seq<MandorlaRegion>, s: QuantumState, steps: nat)
    ensures steps == MinNat(maxDepth, |rs|)
    ensures updated == CachedPrefix(rs, steps, q, m)
    ensures s == Fuse(initial, rs, steps, q, m)
  {
    updated, s, steps := rs, initial, 0;
    assert updated == CachedPrefix(rs, 0, q, m);
    while steps < maxDepth && steps < |updated|
      invariant steps <= maxDepth && steps <= |rs|
      invariant updated == CachedPrefix(rs, steps, q, m)
      invariant s == Fuse(initial, rs, steps, q, m)
    {
      CachedPrefixStep(rs, steps, q, m);
      var result := ComputeIntersection(updated[steps], q, m);
      assert result == ComputeIntersection(rs[steps], q, m);
      assert Fuse(initial, rs, steps + 1, q, m) == FuseStep(s, result.1, steps, q);
      updated := updated[steps := result.0];
      s := FuseStep(s, result.1, steps, q);
      steps := steps + 1;
    }
  }

  /** The regions after the first `n` have had their intersection cached. */
  function CachedPrefix(rs: seq<MandorlaRegion>, n: nat, q: QuantumOps, m: MathFns): (r: seq<MandorlaRegion>)
    requires n <= |rs|
    ensures |r| == |rs|
    ensures forall k :: 0 <= k < n ==> r[k] == ComputeIntersection(rs[k], q, m).0
    ensures forall k :: n <= k < |rs| ==> r[k] == rs[k]
  {
    seq(|rs|, k requires 0 <= k < |rs| => if k < n then ComputeIntersection(rs[k], q, m).0 else rs[k])
  }

  /** Caching one more region updates exactly that index. */
  lemma CachedPrefixStep(rs: seq<MandorlaRegion>, n: nat, q: QuantumOps, m: MathFns)
    requires n < |rs|
    ensures CachedPrefix(rs, n, q, m)[n] == rs[n]
    ensures CachedPrefix(rs, n + 1, q, m) == CachedPrefix(rs, n, q, m)[n := ComputeIntersection(rs[n], q, m).0]
  {
  }

  class MandorlaOperator {
    var regions: seq<MandorlaRegion>
    var recursionLevel: nat
    const qops: QuantumOps
    const math: MathFns

    constructor (qops: QuantumOps, math: MathFns)
      ensures regions == [] && recursionLevel == 0
      ensures this.qops == qops && this.math == math
    {
      regions := [];
      recursionLevel := 0;
      this.qops := qops;
      this.math := math;
    }

    method AddRegion(r: MandorlaRegion)
      modifies this
      ensures regions == old(regions) + [r]
      ensures recursionLevel == old(recursionLevel)
    {
      regions := regions + [r];
    }

    /**
     * `recursive_fusion`: the first min(maxDepth, |regions|) regions get
     * their intersection cached, in index order, and the state is fused with
     * each; the recursion level becomes the number of steps taken and is
     * left alone when no step is taken.
     */
    method RecursiveFusion(initial: QuantumState, maxDepth: nat) returns (s: QuantumState)
      modifies this
      ensures |regions| == |old(regions)|
      ensures var n := MinNat(maxDepth, |old(regions)|);
              (forall k :: 0 <= k < n ==> regions[k] == ComputeIntersection(old(regions)[k], qops, math).0)
              && (forall k :: n <= k < |regions| ==> regions[k] == old(regions)[k])
              && recursionLevel == (if n == 0 then old(recursionLevel) else n)
              && s == Fuse(initial, old(regions), n, qops, math)
    {
      var updated, steps;
      updated, s, steps := FuseRegions(regions, initial, maxDepth, qops, math);
      regions := updated;
      if steps > 0 {
        recursionLevel := steps;
      }
    }

    /** `mandorla_density`: the fraction of regions containing the state, 0 with no regions. */
    function MandorlaDensity(s: QuantumState): (d: real)
      reads this
      ensures 0.0 <= d <= 1.0
      ensures regions == [] ==> d == 0.0
      ensures regions != [] ==> d * |regions| as real == CountContaining(regions, s, qops.fidelity) as real
    {
      if |regions| == 0 then 0.0
      else
        var c := CountContaining(regions, s, qops.fidelity) as real;
        FractionInUnit(c, |regions| as real);
        c / |regions| as real
    }

    /** `check_invariance`: the two densities agree to within 1e-6. */
    predicate CheckInvariance(s: QuantumState, t: QuantumState)
      reads this
    {
      Abs(MandorlaDensity(s) - MandorlaDensity(t)) < 0.000001
    }

    /** The invariance check is reflexive and symmetric. */
    lemma CheckInvarianceReflexiveSymmetric(s: QuantumState, t: QuantumState)
      ensures CheckInvariance(s, s)
      ensures CheckInvariance(s, t) == CheckInvariance(t, s)
    {
    }
  }
}
