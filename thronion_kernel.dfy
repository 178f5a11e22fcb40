/**
 * The Thronion online region classifier (thronion/src/thronion/mod.rs).
 *
 * A `Kernel` holds a bounded vector of learned `GabrielRegion`s.  Each
 * sample is scored against every region by the hybrid resonance
 * (0.3 * 1/(1 + d) + 0.7 * F); `Classify` reports the first region with the
 * strictly greatest score, and `Learn` either blends the sample into that
 * region (score > 0.5), appends a new region, or overwrites the
 * least-confident region when the store is full.  The `EnhancedKernel`
 * counts classifications, and every `optimizationInterval` of them asks its
 * delta kernel for the coherence gradient; above 0.1 it merges regions whose
 * quantum centres have fidelity > 0.9 and evolves the delta kernel for at
 * most 10 steps.
 *
 * Regions are values owned by the kernel's vector, so updating a region's
 * fields in place is modelled as replacing that element.
 */
module ThronionKernel {
  import opened Numerics
  import Eigenstate

  /** Classical traffic signature of a circuit. */
  datatype ClassicalSignature = ClassicalSignature(
    meanInterval: real,
    stdDevInterval: real,
    dataRatio: real,
    introRatio: real,
    totalBytes: real)

  /**
   * The routines the kernel calls but this model does not define: square
   * root, natural logarithm, quantum fidelity and the classical-to-quantum
   * embedding (`ConversionUtils::classical_to_quantum`).
   */
  datatype KernelEnv = KernelEnv(
    sqrt: real -> real,
    ln: real -> real,
    fidelity: (QuantumState, QuantumState) -> real,
    embed: ClassicalSignature -> QuantumState)

  ghost predicate ValidEnv(env: KernelEnv)
  {
    IsSqrt(env.sqrt) && IsFidelity(env.fidelity)
  }

  /**
   * `to_vector`: intervals in milliseconds, the two ratios unchanged and the
   * logarithm of the size in KiB.  A positive byte count keeps the logarithm
   * away from ln(0).
   */
  function ToVector(c: ClassicalSignature, ln: real -> real): (v: seq<real>)
    requires c.totalBytes > 0.0
    ensures |v| == 5
    ensures v[2] == c.dataRatio && v[3] == c.introRatio
  {
    [c.meanInterval / 1000.0, c.stdDevInterval / 1000.0, c.dataRatio, c.introRatio, ln(c.totalBytes / 1024.0)]
  }

  datatype GabrielRegion = GabrielRegion(
    classicalCenter: ClassicalSignature,
    quantumCenter: QuantumState,
    mandorla: Eigenstate.MandorlaRegion,
    learningRate: real,
    sampleCount: nat,
    attackProbability: real)

  const W_CLASSICAL: real := 0.3
  const W_QUANTUM: real := 0.7

  /** Label indicator: 1.0 for an attack, 0.0 otherwise. */
  function Indicator(isAttack: bool): real
  {
    if isAttack then 1.0 else 0.0
  }

  /**
   * `GabrielRegion::new`: neutral attack probability 0.5, no samples, and a
   * Mandorla region centred twice on the quantum state with radius 0.5.
   */
  function NewRegion(c: ClassicalSignature, q: QuantumState, learningRate: real): (r: GabrielRegion)
    ensures r.classicalCenter == c && r.quantumCenter == q && r.learningRate == learningRate
    ensures r.sampleCount == 0 && r.attackProbability == 0.5
    ensures r.mandorla == Eigenstate.NewRegion(q, q, 0.5)
  {
    GabrielRegion(c, q, Eigenstate.NewRegion(q, q, 0.5), learningRate, 0, 0.5)
  }

  /** `hybrid_resonance`: 0.3 * 1/(1 + d) + 0.7 * F, d the distance of the feature vectors. */
  function HybridResonance(r: GabrielRegion, c: ClassicalSignature, q: QuantumState, env: KernelEnv): (s: real)
    requires ValidEnv(env)
    requires c.totalBytes > 0.0 && r.classicalCenter.totalBytes > 0.0
    ensures 0.0 < s <= 1.0
  {
    var d := Distance(ToVector(c, env.ln), ToVector(r.classicalCenter, env.ln), env.sqrt);
    InverseDistanceBounds(d);
    W_CLASSICAL * (1.0 / (1.0 + d)) + W_QUANTUM * env.fidelity(q, r.quantumCenter)
  }

  lemma InverseDistanceBounds(d: real)
    requires d >= 0.0
    ensures 0.0 < 1.0 / (1.0 + d) <= 1.0
  {
  }

  /** A region resonates perfectly (score 1) with its own centres. */
  lemma SelfResonanceIsOne(r: GabrielRegion, env: KernelEnv)
    requires ValidEnv(env) && r.classicalCenter.totalBytes > 0.0
    ensures HybridResonance(r, r.classicalCenter, r.quantumCenter, env) == 1.0
  {
    var v := ToVector(r.classicalCenter, env.ln);
    assert SumSqDiff(v, v) == 0.0;
    assert Distance(v, v, env.sqrt) == 0.0;
  }

  function BlendValue(current: real, sample: real, alpha: real): real
  {
    (1.0 - alpha) * current + alpha * sample
  }

  /** Every classical field blended by `alpha`. */
  function BlendSignature(center: ClassicalSignature, c: ClassicalSignature, alpha: real): (b: ClassicalSignature)
    ensures alpha == 0.0 ==> b == center
    ensures alpha == 1.0 ==> b == c
    ensures 0.0 <= alpha <= 1.0 && center.totalBytes > 0.0 && c.totalBytes > 0.0 ==> b.totalBytes > 0.0
  {
    var b := ClassicalSignature(
      BlendValue(center.meanInterval, c.meanInterval, alpha),
      BlendValue(center.stdDevInterval, c.stdDevInterval, alpha),
      BlendValue(center.dataRatio, c.dataRatio, alpha),
      BlendValue(center.introRatio, c.introRatio, alpha),
      BlendValue(center.totalBytes, c.totalBytes, alpha));
    assert 0.0 <= alpha <= 1.0 && center.totalBytes > 0.0 && c.totalBytes > 0.0 ==> b.totalBytes > 0.0 by {
      if 0.0 <= alpha <= 1.0 && center.totalBytes > 0.0 && c.totalBytes > 0.0 {
        ConvexPositive(center.totalBytes, c.totalBytes, alpha);
      }
    }
    b
  }

  lemma ConvexPositive(x: real, y: real, alpha: real)
    requires 0.0 <= alpha <= 1.0 && x > 0.0 && y > 0.0
    ensures (1.0 - alpha) * x + alpha * y > 0.0
  {
    if alpha < 1.0 {
      MulPos(1.0 - alpha, x);
      MulNonneg(alpha, y);
    } else {
      MulPos(alpha, y);
    }
  }

  /**
   * `update`: one more sample, every classical field and the attack
   * probability blended by the region's own learning rate, and the quantum
   * centre replaced by the sample's state.
   */
  function Update(r: GabrielRegion, c: ClassicalSignature, q: QuantumState, isAttack: bool): (u: GabrielRegion)
    ensures u.sampleCount == r.sampleCount + 1
    ensures u.quantumCenter == q
    ensures u.learningRate == r.learningRate && u.mandorla == r.mandorla
    ensures 0.0 <= r.learningRate <= 1.0 && 0.0 <= r.attackProbability <= 1.0 ==> 0.0 <= u.attackProbability <= 1.0
    ensures 0.0 <= r.learningRate <= 1.0 && r.classicalCenter.totalBytes > 0.0 && c.totalBytes > 0.0 ==>
              u.classicalCenter.totalBytes > 0.0
    ensures r.learningRate == 0.0 ==> u.classicalCenter == r.classicalCenter && u.attackProbability == r.attackProbability
    ensures r.learningRate == 1.0 ==> u.classicalCenter == c && u.attackProbability == Indicator(isAttack)
  {
    var alpha := r.learningRate;
    var p := BlendValue(r.attackProbability, Indicator(isAttack), alpha);
    assert 0.0 <= alpha <= 1.0 && 0.0 <= r.attackProbability <= 1.0 ==> 0.0 <= p <= 1.0 by {
      if 0.0 <= alpha <= 1.0 && 0.0 <= r.attackProbability <= 1.0 {
        ConvexStaysInRange(r.attackProbability, Indicator(isAttack), alpha, 0.0, 1.0);
      }
    }
    r.(classicalCenter := BlendSignature(r.classicalCenter, c, alpha),
       quantumCenter := q,
       sampleCount := r.sampleCount + 1,
       attackProbability := p)
  }

  /** `is_attack_region`. */
  predicate IsAttackRegion(r: GabrielRegion)
  {
    r.attackProbability > 0.7
  }

  /** The invariant every stored region satisfies. */
  predicate WellFormed(r: GabrielRegion)
  {
    0.0 <= r.attackProbability <= 1.0
    && 0.0 <= r.learningRate <= 1.0
    && r.classicalCenter.totalBytes > 0.0
  }

  predicate AllWellFormed(rs: seq<GabrielRegion>)
  {
    forall k :: 0 <= k < |rs| ==> WellFormed(rs[k])
  }

  /** Applies a sequence of labelled samples to one region, in order. */
  function UpdateAll(r: GabrielRegion, samples: seq<(ClassicalSignature, QuantumState, bool)>): GabrielRegion
    decreases |samples|
  {
    if |samples| == 0 then r
    else UpdateAll(Update(r, samples[0].0, samples[0].1, samples[0].2), samples[1..])
  }

  /**
   * Seeding quirk: a region created for a benign sample has learning rate
   * 0, so no later update moves its classical centre or its attack
   * probability away from the seed values (in particular it stays 0.5).
   */
  lemma {:induction false} BenignSeedIsFrozen(c: ClassicalSignature, q: QuantumState,
                                              samples: seq<(ClassicalSignature, QuantumState, bool)>)
    ensures UpdateAll(NewRegion(c, q, Indicator(false)), samples).attackProbability == 0.5
    ensures UpdateAll(NewRegion(c, q, Indicator(false)), samples).classicalCenter == c
    ensures UpdateAll(NewRegion(c, q, Indicator(false)), samples).learningRate == 0.0
  {
    FrozenRegionStaysFrozen(NewRegion(c, q, Indicator(false)), samples);
  }

  lemma {:induction false} FrozenRegionStaysFrozen(r: GabrielRegion, samples: seq<(ClassicalSignature, QuantumState, bool)>)
    requires r.learningRate == 0.0
    ensures UpdateAll(r, samples).attackProbability == r.attackProbability
    ensures UpdateAll(r, samples).classicalCenter == r.classicalCenter
    ensures UpdateAll(r, samples).learningRate == 0.0
    decreases |samples|
  {
    if |samples| > 0 {
      FrozenRegionStaysFrozen(Update(r, samples[0].0, samples[0].1, samples[0].2), samples[1..]);
    }
  }

  /**
   * Seeding quirk: a region created for an attack sample has learning rate
   * 1, so its first update replaces its probability by the new label.
   */
  lemma AttackSeedFollowsLastLabel(c: ClassicalSignature, q: QuantumState, c2: ClassicalSignature, q2: QuantumState, isAttack: bool)
    ensures NewRegion(c, q, Indicator(true)).attackProbability == 0.5
    ensures Update(NewRegion(c, q, Indicator(true)), c2, q2, isAttack).attackProbability == Indicator(isAttack)
    ensures Update(NewRegion(c, q, Indicator(true)), c2, q2, isAttack).classicalCenter == c2
  {
  }

  /** The resonance of the sample against every region, in index order. */
  function Scores(rs: seq<GabrielRegion>, c: ClassicalSignature, q: QuantumState, env: KernelEnv): (s: seq<real>)
    requires ValidEnv(env) && c.totalBytes > 0.0 && AllWellFormed(rs)
    ensures |s| == |rs|
    ensures forall k :: 0 <= k < |s| ==> 0.0 < s[k] <= 1.0
  {
    seq(|rs|, k requires 0 <= k < |rs| => HybridResonance(rs[k], c, q, env))
  }

  /**
   * The scan `best = 0.0; if score > best { best = score; idx = k }`: the
   * best score (at least 0) and the FIRST index reaching it, if any score is
   * positive.
   */
  function BestScore(s: seq<real>): (res: (real, Option<nat>))
    ensures res.0 >= 0.0
    ensures forall k :: 0 <= k < |s| ==> s[k] <= res.0
    ensures res.1.None? ==> res.0 == 0.0
    ensures res.1.Some? ==>
              res.1.value < |s| && s[res.1.value] == res.0 && res.0 > 0.0
              && forall k :: 0 <= k < res.1.value ==> s[k] < res.0
  {
    if |s| == 0 then (0.0, None)
    else
      var pre := s[..|s| - 1];
      var r := BestScore(pre);
      assert forall k :: 0 <= k < |pre| ==> pre[k] == s[k];
      if s[|s| - 1] > r.0 then (s[|s| - 1], Some(|s| - 1)) else r
  }

  lemma BestScorePrefixStep(s: seq<real>, k: nat)
    requires k < |s|
    ensures BestScore(s[..k + 1]) == (if s[k] > BestScore(s[..k]).0 then (s[k], Some(k)) else BestScore(s[..k]))
  {
    assert s[..k + 1][..k] == s[..k];
  }

  /** With all scores positive, a non-empty scan always finds an index. */
  lemma BestScoreFindsIndex(s: seq<real>)
    requires |s| > 0 && forall k :: 0 <= k < |s| ==> s[k] > 0.0
    ensures BestScore(s).1.Some?
  {
    assert s[0] <= BestScore(s).0;
  }

  /** Confidence of a region: the distance of its attack probability from 0.5. */
  function Confidences(rs: seq<GabrielRegion>): (s: seq<real>)
    ensures |s| == |rs|
  {
    seq(|rs|, k requires 0 <= k < |rs| => Abs(rs[k].attackProbability - 0.5))
  }

  /**
   * The scan `min = 1.0; idx = 0; if conf < min { min = conf; idx = k }`:
   * the smallest value (at most 1.0) and the FIRST index below 1.0 that
   * reaches it, or 0 when no entry is below 1.0.
   */
  function LeastConfident(s: seq<real>): (res: (real, nat))
    ensures |s| > 0 ==> res.1 < |s|
  {
    if |s| == 0 then (1.0, 0)
    else
      var r := LeastConfident(s[..|s| - 1]);
      if s[|s| - 1] < r.0 then (s[|s| - 1], |s| - 1) else r
  }

  /** What the scan finds: a lower bound of every entry, at most 1.0, met first at its index when below 1.0. */
  lemma {:induction false} LeastConfidentMeaning(s: seq<real>)
    ensures var res := LeastConfident(s);
            res.0 <= 1.0
            && (forall k :: 0 <= k < |s| ==> res.0 <= s[k])
            && (res.0 < 1.0 ==> res.1 < |s| && s[res.1] == res.0 && forall k :: 0 <= k < res.1 ==> s[k] > res.0)
            && (res.0 == 1.0 ==> res.1 == 0)
    decreases |s|
  {
    if |s| > 0 {
      var pre := s[..|s| - 1];
      LeastConfidentMeaning(pre);
      assert forall k :: 0 <= k < |pre| ==> pre[k] == s[k];
    }
  }

  lemma LeastConfidentPrefixStep(s: seq<real>, k: nat)
    requires k < |s|
    ensures s[k] < LeastConfident(s[..k]).0 ==>
              LeastConfident(s[..k + 1]).0 == s[k] && LeastConfident(s[..k + 1]).1 == k
    ensures !(s[k] < LeastConfident(s[..k]).0) ==>
              LeastConfident(s[..k + 1]).0 == LeastConfident(s[..k]).0
              && LeastConfident(s[..k + 1]).1 == LeastConfident(s[..k]).1
  {
    assert s[..k + 1][..k] == s[..k];
    assert s[..k + 1][k] == s[k];
  }

  /** The loop of `find_least_confident` over a store `rs`. */
  method LeastConfidentScan(rs: seq<GabrielRegion>) returns (idx: nat)
    ensures idx == LeastConfident(Confidences(rs)).1
  {
    ghost var s := Confidences(rs);
    var minConfidence := 1.0;
    idx := 0;
    var k := 0;
    while k < |rs|
      invariant 0 <= k <= |rs|
      invariant minConfidence == LeastConfident(s[..k]).0 && idx == LeastConfident(s[..k]).1
    {
      LeastConfidentPrefixStep(s, k);
      var confidence := Abs(rs[k].attackProbability - 0.5);
      assert confidence == s[k];
      if confidence < minConfidence {
        minConfidence := confidence;
        idx := k;
      }
      k := k + 1;
    }
    assert s[..|rs|] == s;
  }

  /** The value `classify` returns for a store `rs`. */
  function ClassifySpec(rs: seq<GabrielRegion>, c: ClassicalSignature, env: KernelEnv): (bool, real, Option<nat>)
    requires ValidEnv(env) && c.totalBytes > 0.0 && AllWellFormed(rs)
  {
    if |rs| == 0 then (false, 0.0, None)
    else
      var best := BestScore(Scores(rs, c, env.embed(c), env));
      var i := if best.1.Some? then best.1.value else 0;
      (best.0 > 0.3 && IsAttackRegion(rs[i]), best.0, Some(i))
  }

  /**
   * `classify` on a non-empty store reports the first region with the
   * strictly greatest resonance, and calls the sample an attack exactly when
   * that resonance exceeds 0.3 and the region is an attack region.
   */
  lemma ClassifyPicksFirstBest(rs: seq<GabrielRegion>, c: ClassicalSignature, env: KernelEnv)
    requires ValidEnv(env) && c.totalBytes > 0.0 && AllWellFormed(rs)
    requires |rs| > 0
    ensures var (isAttack, best, idx) := ClassifySpec(rs, c, env);
            var s := Scores(rs, c, env.embed(c), env);
            idx.Some? && idx.value < |rs|
            && best == s[idx.value]
            && (forall k :: 0 <= k < |rs| ==> s[k] <= best)
            && (forall k :: 0 <= k < idx.value ==> s[k] < best)
            && isAttack == (best > 0.3 && rs[idx.value].attackProbability > 0.7)
  {
    BestScoreFindsIndex(Scores(rs, c, env.embed(c), env));
  }

  /** The store after `learn` on a store `rs` with capacity `maxRegions`. */
  function LearnSpec(rs: seq<GabrielRegion>, maxRegions: nat, c: ClassicalSignature, isAttack: bool, env: KernelEnv): seq<GabrielRegion>
    requires ValidEnv(env) && c.totalBytes > 0.0 && AllWellFormed(rs)
    requires maxRegions > 0 || |rs| > 0
  {
    var q := env.embed(c);
    var best := BestScore(Scores(rs, c, q, env));
    if best.0 > 0.5 then
      match best.1
      case Some(i) => rs[i := Update(rs[i], c, q, isAttack)]
      case None => rs
    else if |rs| < maxRegions then
      rs + [NewRegion(c, q, Indicator(isAttack))]
    else
      rs[LeastConfident(Confidences(rs)).1 := NewRegion(c, q, Indicator(isAttack))]
  }

  /**
   * A strong match (best resonance > 0.5) updates exactly the first best
   * region and leaves every other region as it was.
   */
  lemma LearnUpdatesOnlyMatch(rs: seq<GabrielRegion>, maxRegions: nat, c: ClassicalSignature, isAttack: bool, env: KernelEnv)
    requires ValidEnv(env) && c.totalBytes > 0.0 && AllWellFormed(rs)
    requires maxRegions > 0 || |rs| > 0
    requires BestScore(Scores(rs, c, env.embed(c), env)).0 > 0.5
    ensures var s := Scores(rs, c, env.embed(c), env);
            var i := BestScore(s).1.value;
            var r := LearnSpec(rs, maxRegions, c, isAttack, env);
            BestScore(s).1.Some? && i < |rs|
            && (forall k :: 0 <= k < i ==> s[k] < s[i])
            && (forall k :: 0 <= k < |rs| ==> s[k] <= s[i])
            && |r| == |rs|
            && r[i] == Update(rs[i], c, env.embed(c), isAttack)
            && (forall k :: 0 <= k < |rs| && k != i ==> r[k] == rs[k])
  {
  }

  /**
   * No dropped samples: a weak match (best resonance <= 0.5, which includes
   * the empty store) always stores a fresh region for the sample, appended
   * below capacity and otherwise written over the first least-confident
   * region.
   */
  lemma LearnNeverDropsSample(rs: seq<GabrielRegion>, maxRegions: nat, c: ClassicalSignature, isAttack: bool, env: KernelEnv)
    requires ValidEnv(env) && c.totalBytes > 0.0 && AllWellFormed(rs)
    requires maxRegions > 0 || |rs| > 0
    requires BestScore(Scores(rs, c, env.embed(c), env)).0 <= 0.5
    ensures var seeded := NewRegion(c, env.embed(c), Indicator(isAttack));
            var r := LearnSpec(rs, maxRegions, c, isAttack, env);
            var conf := Confidences(rs);
            var m := LeastConfident(conf).1;
            seeded in r
            && (|rs| < maxRegions ==> r == rs + [seeded])
            && (|rs| >= maxRegions ==>
                  m < |rs| && |r| == |rs| && r[m] == seeded
                  && (forall k :: 0 <= k < |rs| ==> conf[m] <= conf[k])
                  && (forall k :: 0 <= k < m ==> conf[k] > conf[m])
                  && (forall k :: 0 <= k < |rs| && k != m ==> r[k] == rs[k]))
  {
    var seeded := NewRegion(c, env.embed(c), Indicator(isAttack));
    var r := LearnSpec(rs, maxRegions, c, isAttack, env);
    if |rs| < maxRegions {
      assert r == rs + [seeded];
      assert r[|rs|] == seeded;
    } else {
      var conf := Confidences(rs);
      var m := LeastConfident(conf).1;
      LeastConfidentMeaning(conf);
      LeastConfidentIsBelowOne(rs);
      assert r == rs[m := seeded];
      assert r[m] == seeded;
    }
  }

  /** A non-empty store of well-formed regions has a least-confident value below 1. */
  lemma LeastConfidentIsBelowOne(rs: seq<GabrielRegion>)
    requires AllWellFormed(rs) && |rs| > 0
    ensures LeastConfident(Confidences(rs)).0 < 1.0
  {
    var conf := Confidences(rs);
    LeastConfidentMeaning(conf);
    assert WellFormed(rs[0]);
    assert conf[0] <= 0.5;
  }

  /**
   * `learn` keeps the store within capacity and keeps every region well
   * formed; the new store never shrinks and grows by at most one region.
   */
  lemma LearnKeepsInvariant(rs: seq<GabrielRegion>, maxRegions: nat, c: ClassicalSignature, isAttack: bool, env: KernelEnv)
    requires ValidEnv(env) && c.totalBytes > 0.0 && AllWellFormed(rs)
    requires maxRegions > 0 && |rs| <= maxRegions
    ensures var r := LearnSpec(rs, maxRegions, c, isAttack, env);
            |r| <= maxRegions && |rs| <= |r| <= |rs| + 1 && AllWellFormed(r)
  {
    var r := LearnSpec(rs, maxRegions, c, isAttack, env);
    var q := env.embed(c);
    var best := BestScore(Scores(rs, c, q, env));
    if best.0 > 0.5 && best.1.Some? {
      var i := best.1.value;
      assert WellFormed(rs[i]);
      assert WellFormed(Update(rs[i], c, q, isAttack));
    }
  }

  datatype KernelStats = KernelStats(totalRegions: nat, attackRegions: nat, benignRegions: nat, attackThreshold: real)

  /** Number of attack regions. */
  function CountAttack(rs: seq<GabrielRegion>): (n: nat)
    ensures n <= |rs|
  {
    if |rs| == 0 then 0
    else CountAttack(rs[..|rs| - 1]) + (if IsAttackRegion(rs[|rs| - 1]) then 1 else 0)
  }

  class Kernel {
    var regions: seq<GabrielRegion>
    var attackThreshold: real
    var maxRegions: nat
    var learningRate: real
    const env: KernelEnv

    ghost predicate Valid()
      reads this
    {
      ValidEnv(env) && |regions| <= maxRegions && AllWellFormed(regions)
    }

    /** `ThronionKernel::new`: empty store, threshold 0.5, capacity 100, learning rate 0.1. */
    constructor (env: KernelEnv)
      requires ValidEnv(env)
      ensures Valid()
      ensures regions == [] && attackThreshold == 0.5 && maxRegions == 100 && learningRate == 0.1
      ensures this.env == env
    {
      regions := [];
      attackThreshold := 0.5;
      maxRegions := 100;
      learningRate := 0.1;
      this.env := env;
    }

    /** `ThronionKernel::with_params`. */
    constructor WithParams(attackThreshold: real, maxRegions: nat, learningRate: real, env: KernelEnv)
      requires ValidEnv(env)
      ensures Valid()
      ensures regions == [] && this.attackThreshold == attackThreshold
      ensures this.maxRegions == maxRegions && this.learningRate == learningRate
      ensures this.env == env
    {
      regions := [];
      this.attackThreshold := attackThreshold;
      this.maxRegions := maxRegions;
      this.learningRate := learningRate;
      this.env := env;
    }

    /** The resonance scan shared by `classify` and `learn`. */
    method FindBestMatch(c: ClassicalSignature, q: QuantumState) returns (best: real, idx: Option<nat>)
      requires Valid() && c.totalBytes > 0.0
      ensures (best, idx) == BestScore(Scores(regions, c, q, env))
    {
      ghost var s := Scores(regions, c, q, env);
      best := 0.0;
      idx := None;
      var k := 0;
      while k < |regions|
        invariant 0 <= k <= |regions|
        invariant (best, idx) == BestScore(s[..k])
      {
        BestScorePrefixStep(s, k);
        var resonance := HybridResonance(regions[k], c, q, env);
        if resonance > best {
          best := resonance;
          idx := Some(k);
        }
        k := k + 1;
      }
      assert s[..|regions|] == s;
    }

    /**
     * `classify`: (false, 0.0, None) on an empty store; otherwise the best
     * resonance and its first region, which decides the verdict.  The store
     * is only read, and the attack threshold plays no part.
     */
    method Classify(c: ClassicalSignature) returns (isAttack: bool, resonance: real, idx: Option<nat>)
      requires Valid() && c.totalBytes > 0.0
      ensures (isAttack, resonance, idx) == ClassifySpec(regions, c, env)
      ensures regions == [] ==> !isAttack && resonance == 0.0 && idx == None
      ensures regions != [] ==> idx.Some? && idx.value < |regions|
    {
      if |regions| == 0 {
        return false, 0.0, None;
      }
      var q := env.embed(c);
      var best, found := FindBestMatch(c, q);
      var i := if found.Some? then found.value else 0;
      isAttack := best > 0.3 && IsAttackRegion(regions[i]);
      resonance := best;
      idx := Some(i);
    }

    /** The first region with the smallest confidence |p - 0.5|. */
    method FindLeastConfident() returns (idx: nat)
      requires Valid() && |regions| > 0
      ensures idx == LeastConfident(Confidences(regions)).1
      ensures idx < |regions|
    {
      idx := LeastConfidentScan(regions);
    }

    /**
     * `learn`.  The source indexes `regions[0]` on an empty store when the
     * capacity is 0, hence the positive capacity.
     */
    method Learn(c: ClassicalSignature, isAttack: bool)
      requires Valid() && maxRegions > 0 && c.totalBytes > 0.0
      modifies this
      ensures Valid()
      ensures maxRegions == old(maxRegions) && attackThreshold == old(attackThreshold)
      ensures regions == LearnSpec(old(regions), old(maxRegions), c, isAttack, env)
      ensures learningRate == old(learningRate)
    {
      LearnKeepsInvariant(regions, maxRegions, c, isAttack, env);
      var q := env.embed(c);
      var best, found := FindBestMatch(c, q);
      if best > 0.5 {
        if found.Some? {
          var i := found.value;
          regions := regions[i := Update(regions[i], c, q, isAttack)];
        }
      } else if |regions| < maxRegions {
        regions := regions + [NewRegion(c, q, Indicator(isAttack))];
      } else {
        var i := FindLeastConfident();
        regions := regions[i := NewRegion(c, q, Indicator(isAttack))];
      }
    }

    /** `stats`: attack regions (p > 0.7) and benign regions partition the store. */
    function Stats(): (st: KernelStats)
      reads this
      ensures st.totalRegions == |regions|
      ensures st.attackRegions == CountAttack(regions)
      ensures st.attackRegions + st.benignRegions == st.totalRegions
      ensures st.attackThreshold == attackThreshold
    {
      var attack := CountAttack(regions);
      KernelStats(|regions|, attack, |regions| - attack, attackThreshold)
    }

    /** `reset`: empties the store and changes nothing else. */
    method Reset()
      requires Valid()
      modifies this
      ensures Valid()
      ensures regions == []
      ensures attackThreshold == old(attackThreshold) && maxRegions == old(maxRegions)
      ensures learningRate == old(learningRate)
    {
      regions := [];
    }

    /**
     * One iteration of `merge_coherent_regions` for the pair (i, j): when j
     * is still an index, region i takes the summed count and the weighted
     * probability (if that sum is positive) and region j is removed.
     */
    method MergeStep(p: (nat, nat))
      requires p.0 < p.1
      modifies this
      ensures regions == MergeOne(old(regions), p)
      ensures attackThreshold == old(attackThreshold) && maxRegions == old(maxRegions)
      ensures learningRate == old(learningRate)
    {
      if p.1 < |regions| {
        var ri := regions[p.0];
        var rj := regions[p.1];
        var total := ri.sampleCount + rj.sampleCount;
        if total > 0 {
          regions := regions[p.0 := ri.(attackProbability := MergedProbability(ri, rj), sampleCount := total)];
        }
        regions := RemoveAt(regions, p.1);
      }
    }
  }

  // ---------------------------------------------------------------------
  // Merging of coherent regions
  // ---------------------------------------------------------------------

  /** The pairs (i, j) with i < j < hi whose quantum centres have fidelity > 0.9, by increasing j. */
  function RowPairs(rs: seq<GabrielRegion>, i: nat, hi: nat, fid: (QuantumState, QuantumState) -> real): seq<(nat, nat)>
    requires i < |rs| && hi <= |rs|
  {
    if hi <= i + 1 then []
    else
      var j := hi - 1;
      RowPairs(rs, i, j, fid) + (if fid(rs[i].quantumCenter, rs[j].quantumCenter) > 0.9 then [(i, j)] else [])
  }

  /** Row i collects pairs (i, j) with i < j < hi, by increasing j. */
  lemma {:induction false} RowPairsShape(rs: seq<GabrielRegion>, i: nat, hi: nat, fid: (QuantumState, QuantumState) -> real)
    requires i < |rs| && hi <= |rs|
    ensures forall k :: 0 <= k < |RowPairs(rs, i, hi, fid)| ==>
              RowPairs(rs, i, hi, fid)[k].0 == i && i < RowPairs(rs, i, hi, fid)[k].1 < hi
    ensures forall a, b :: 0 <= a < b < |RowPairs(rs, i, hi, fid)| ==> RowPairs(rs, i, hi, fid)[a].1 < RowPairs(rs, i, hi, fid)[b].1
    decreases hi
  {
    if hi > i + 1 {
      var j := hi - 1;
      RowPairsShape(rs, i, j, fid);
      var pre := RowPairs(rs, i, j, fid);
      var last: seq<(nat, nat)> := if fid(rs[i].quantumCenter, rs[j].quantumCenter) > 0.9 then [(i, j)] else [];
      var ps := pre + last;
      assert RowPairs(rs, i, hi, fid) == ps;
      forall k | 0 <= k < |ps|
        ensures ps[k].0 == i && i < ps[k].1 < hi
      {
        if k < |pre| {
          assert ps[k] == pre[k];
        } else {
          assert ps[k] == (i, j);
        }
      }
      forall a, b | 0 <= a < b < |ps|
        ensures ps[a].1 < ps[b].1
      {
        if b < |pre| {
          assert ps[a] == pre[a] && ps[b] == pre[b];
        } else {
          assert ps[a] == pre[a] && ps[b] == (i, j);
        }
      }
    }
  }

  /** One pair (i, j) is in row i exactly when it qualifies. */
  lemma {:induction false} RowPairIff(rs: seq<GabrielRegion>, i: nat, hi: nat, fid: (QuantumState, QuantumState) -> real, j: nat)
    requires i < |rs| && hi <= |rs| && i < j < hi
    ensures (i, j) in RowPairs(rs, i, hi, fid) <==> fid(rs[i].quantumCenter, rs[j].quantumCenter) > 0.9
    decreases hi
  {
    var q := fid(rs[i].quantumCenter, rs[j].quantumCenter) > 0.9;
    if j == hi - 1 {
      LastPairOfRowIff(rs, i, hi, fid);
      assert ((i, hi - 1) in RowPairs(rs, i, hi, fid)) == q;
    } else {
      RowPairIff(rs, i, hi - 1, fid, j);
      EarlierPairOfRowIff(rs, i, hi, fid, j);
      assert ((i, j) in RowPairs(rs, i, hi - 1, fid)) == q;
    }
  }

  /** The pair (i, hi - 1) is in the row up to hi exactly when it qualifies. */
  lemma LastPairOfRowIff(rs: seq<GabrielRegion>, i: nat, hi: nat, fid: (QuantumState, QuantumState) -> real)
    requires i < |rs| && hi <= |rs| && i + 1 < hi
    ensures (i, hi - 1) in RowPairs(rs, i, hi, fid) <==> fid(rs[i].quantumCenter, rs[hi - 1].quantumCenter) > 0.9
  {
    var pre := RowPairs(rs, i, hi - 1, fid);
    var last: seq<(nat, nat)> := if fid(rs[i].quantumCenter, rs[hi - 1].quantumCenter) > 0.9 then [(i, hi - 1)] else [];
    assert RowPairs(rs, i, hi, fid) == pre + last;
    InConcat(pre, last, (i, hi - 1));
    RowPairsShape(rs, i, hi - 1, fid);
    NotInWhenSecondsDiffer(pre, (i, hi - 1));
  }

  /** A pair (i, j) with j < hi - 1 is in the row up to hi exactly when it is in the row up to hi - 1. */
  lemma EarlierPairOfRowIff(rs: seq<GabrielRegion>, i: nat, hi: nat, fid: (QuantumState, QuantumState) -> real, j: nat)
    requires i < |rs| && hi <= |rs| && i < j < hi - 1
    ensures (i, j) in RowPairs(rs, i, hi, fid) <==> (i, j) in RowPairs(rs, i, hi - 1, fid)
  {
    var pre := RowPairs(rs, i, hi - 1, fid);
    var last: seq<(nat, nat)> := if fid(rs[i].quantumCenter, rs[hi - 1].quantumCenter) > 0.9 then [(i, hi - 1)] else [];
    assert RowPairs(rs, i, hi, fid) == pre + last;
    InConcat(pre, last, (i, j));
    NotInWhenSecondsDiffer(last, (i, j));
  }

  /** A pair whose second index no listed pair has is not listed. */
  lemma NotInWhenSecondsDiffer(ps: seq<(nat, nat)>, p: (nat, nat))
    requires forall k :: 0 <= k < |ps| ==> ps[k].1 != p.1
    ensures p !in ps
  {
  }

  /** A row holds exactly the qualifying pairs of region i. */
  lemma RowPairsExact(rs: seq<GabrielRegion>, i: nat, hi: nat, fid: (QuantumState, QuantumState) -> real)
    requires i < |rs| && hi <= |rs|
    ensures forall j :: i < j < hi ==>
              ((i, j) in RowPairs(rs, i, hi, fid) <==> fid(rs[i].quantumCenter, rs[j].quantumCenter) > 0.9)
  {
    forall j | i < j < hi
      ensures (i, j) in RowPairs(rs, i, hi, fid) <==> fid(rs[i].quantumCenter, rs[j].quantumCenter) > 0.9
    {
      RowPairIff(rs, i, hi, fid, j);
    }
  }

  /** Lexicographic order of pairs. */
  predicate PairLess(p: (nat, nat), q: (nat, nat))
  {
    p.0 < q.0 || (p.0 == q.0 && p.1 < q.1)
  }

  /** The pairs collected from the first `n` rows. */
  function PairsUpTo(rs: seq<GabrielRegion>, n: nat, fid: (QuantumState, QuantumState) -> real): seq<(nat, nat)>
    requires n <= |rs|
  {
    if n == 0 then [] else PairsUpTo(rs, n - 1, fid) + RowPairs(rs, n - 1, |rs|, fid)
  }

  /** The pairs of the first n rows start below n, have i < j < the number of regions, and are in lexicographic order. */
  lemma {:induction false} PairsUpToOrdered(rs: seq<GabrielRegion>, n: nat, fid: (QuantumState, QuantumState) -> real)
    requires n <= |rs|
    ensures forall k :: 0 <= k < |PairsUpTo(rs, n, fid)| ==>
              PairsUpTo(rs, n, fid)[k].0 < n && PairsUpTo(rs, n, fid)[k].0 < PairsUpTo(rs, n, fid)[k].1 < |rs|
    ensures forall a, b :: 0 <= a < b < |PairsUpTo(rs, n, fid)| ==> PairLess(PairsUpTo(rs, n, fid)[a], PairsUpTo(rs, n, fid)[b])
  {
    if n > 0 {
      PairsUpToOrdered(rs, n - 1, fid);
      RowPairsShape(rs, n - 1, |rs|, fid);
      var pre := PairsUpTo(rs, n - 1, fid);
      var row := RowPairs(rs, n - 1, |rs|, fid);
      var ps := pre + row;
      assert PairsUpTo(rs, n, fid) == ps;
      forall k | 0 <= k < |ps|
        ensures ps[k].0 < n && ps[k].0 < ps[k].1 < |rs|
      {
        if k < |pre| {
          assert ps[k] == pre[k];
        } else {
          assert ps[k] == row[k - |pre|];
        }
      }
      forall a, b | 0 <= a < b < |ps|
        ensures PairLess(ps[a], ps[b])
      {
        if b < |pre| {
          assert ps[a] == pre[a] && ps[b] == pre[b];
        } else if a < |pre| {
          assert ps[a] == pre[a] && ps[b] == row[b - |pre|];
          assert pre[a].0 < n - 1 && row[b - |pre|].0 == n - 1;
        } else {
          assert ps[a] == row[a - |pre|] && ps[b] == row[b - |pre|];
          assert row[a - |pre|].1 < row[b - |pre|].1;
        }
      }
    }
  }

  /** `to_merge`: every pair i < j of regions whose quantum centres have fidelity > 0.9. */
  function CoherentPairs(rs: seq<GabrielRegion>, fid: (QuantumState, QuantumState) -> real): (ps: seq<(nat, nat)>)
    ensures forall k :: 0 <= k < |ps| ==> ps[k].0 < ps[k].1 < |rs|
    ensures forall a, b :: 0 <= a < b < |ps| ==> PairLess(ps[a], ps[b])
  {
    PairsUpToOrdered(rs, |rs|, fid);
    PairsUpTo(rs, |rs|, fid)
  }

  /** The rows 0 .. n - 1 of candidate pairs, each as `RowPairs` lists it. */
  function Rows(rs: seq<GabrielRegion>, n: nat, fid: (QuantumState, QuantumState) -> real): (rows: seq<seq<(nat, nat)>>)
    requires n <= |rs|
    ensures |rows| == n && forall r :: 0 <= r < n ==> rows[r] == RowPairs(rs, r, |rs|, fid)
  {
    seq(n, r requires 0 <= r < n => RowPairs(rs, r, |rs|, fid))
  }

  /** The rows one after the other. */
  function Flatten(rows: seq<seq<(nat, nat)>>): seq<(nat, nat)>
  {
    if |rows| == 0 then [] else Flatten(rows[..|rows| - 1]) + rows[|rows| - 1]
  }

  /** The pairs of the first n rows are those rows flattened. */
  lemma {:induction false} PairsUpToFlattens(rs: seq<GabrielRegion>, n: nat, fid: (QuantumState, QuantumState) -> real)
    requires n <= |rs|
    ensures PairsUpTo(rs, n, fid) == Flatten(Rows(rs, n, fid))
  {
    if n > 0 {
      PairsUpToFlattens(rs, n - 1, fid);
      assert Rows(rs, n, fid)[..n - 1] == Rows(rs, n - 1, fid);
    }
  }

  /**
   * When every pair of row r starts with r, a pair is in the flattened
   * rows exactly when it is in the row its first index names.
   */
  lemma {:induction false} InFlattenIff(rows: seq<seq<(nat, nat)>>, p: (nat, nat))
    requires forall r, k :: 0 <= r < |rows| && 0 <= k < |rows[r]| ==> rows[r][k].0 == r
    ensures p.0 < |rows| ==> (p in Flatten(rows) <==> p in rows[p.0])
    ensures p.0 >= |rows| ==> p !in Flatten(rows)
    decreases |rows|
  {
    if |rows| > 0 {
      var pre := rows[..|rows| - 1];
      var last := rows[|rows| - 1];
      assert forall r, k :: 0 <= r < |pre| && 0 <= k < |pre[r]| ==> pre[r][k] == rows[r][k];
      InFlattenIff(pre, p);
      InConcat(Flatten(pre), last, p);
      if p.0 != |rows| - 1 {
        NotInWhenFirstsDiffer(last, p);
      }
      if p.0 < |pre| {
        assert pre[p.0] == rows[p.0];
      }
    }
  }

  /** The rows of candidate pairs have that shape. */
  lemma RowsShape(rs: seq<GabrielRegion>, n: nat, fid: (QuantumState, QuantumState) -> real)
    requires n <= |rs|
    ensures forall r, k :: 0 <= r < n && 0 <= k < |Rows(rs, n, fid)[r]| ==> Rows(rs, n, fid)[r][k].0 == r
  {
    var rows: seq<seq<(nat, nat)>> := Rows(rs, n, fid);
    forall r: nat, k: nat | 0 <= r < n && 0 <= k < |rows[r]|
      ensures rows[r][k].0 == r
    {
      RowPairsShape(rs, r, |rs|, fid);
    }
  }

  /** One pair i < j with i among the first n rows is collected exactly when it qualifies. */
  lemma PairCollectedIff(rs: seq<GabrielRegion>, fid: (QuantumState, QuantumState) -> real, n: nat, i: nat, j: nat)
    requires n <= |rs| && i < n && i < j < |rs|
    ensures (i, j) in PairsUpTo(rs, n, fid) <==> fid(rs[i].quantumCenter, rs[j].quantumCenter) > 0.9
  {
    PairsUpToFlattens(rs, n, fid);
    RowsShape(rs, n, fid);
    InFlattenIff(Rows(rs, n, fid), (i, j));
    RowPairIff(rs, i, |rs|, fid, j);
  }

  lemma InConcat(a: seq<(nat, nat)>, b: seq<(nat, nat)>, p: (nat, nat))
    ensures p in a + b <==> p in a || p in b
  {
  }

  /** A pair whose first index no listed pair has is not listed. */
  lemma NotInWhenFirstsDiffer(ps: seq<(nat, nat)>, p: (nat, nat))
    requires forall k :: 0 <= k < |ps| ==> ps[k].0 != p.0
    ensures p !in ps
  {
  }

  /** Every qualifying pair is collected, and only qualifying pairs are. */
  lemma CoherentPairsExact(rs: seq<GabrielRegion>, fid: (QuantumState, QuantumState) -> real, n: nat)
    requires n <= |rs|
    ensures forall i, j :: 0 <= i < n && i < j < |rs| ==>
              ((i, j) in PairsUpTo(rs, n, fid) <==> fid(rs[i].quantumCenter, rs[j].quantumCenter) > 0.9)
  {
    forall i, j | 0 <= i < n && i < j < |rs|
      ensures (i, j) in PairsUpTo(rs, n, fid) <==> fid(rs[i].quantumCenter, rs[j].quantumCenter) > 0.9
    {
      PairCollectedIff(rs, fid, n, i, j);
    }
  }

  /** The inner loop of `merge_coherent_regions`: row i's qualifying pairs appended to `acc`. */
  method CollectRow(rs: seq<GabrielRegion>, fid: (QuantumState, QuantumState) -> real, i: nat, acc: seq<(nat, nat)>)
    returns (r: seq<(nat, nat)>)
    requires i < |rs|
    ensures r == acc + RowPairs(rs, i, |rs|, fid)
  {
    r := acc;
    var j := i + 1;
    while j < |rs|
      invariant i + 1 <= j <= |rs|
      invariant r == acc + RowPairs(rs, i, j, fid)
    {
      var fidelity := fid(rs[i].quantumCenter, rs[j].quantumCenter);
      RowPairsStep(rs, i, j, fid, acc);
      if fidelity > 0.9 {
        r := r + [(i, j)];
      }
      j := j + 1;
    }
  }

  /** One more column of row i: the pair (i, j) is appended exactly when it qualifies. */
  lemma RowPairsStep(rs: seq<GabrielRegion>, i: nat, j: nat, fid: (QuantumState, QuantumState) -> real,
                     acc: seq<(nat, nat)>)
    requires i < j < |rs|
    ensures fid(rs[i].quantumCenter, rs[j].quantumCenter) > 0.9 ==>
              acc + RowPairs(rs, i, j + 1, fid) == acc + RowPairs(rs, i, j, fid) + [(i, j)]
    ensures !(fid(rs[i].quantumCenter, rs[j].quantumCenter) > 0.9) ==>
              acc + RowPairs(rs, i, j + 1, fid) == acc + RowPairs(rs, i, j, fid)
  {
    var row := RowPairs(rs, i, j, fid);
    if fid(rs[i].quantumCenter, rs[j].quantumCenter) > 0.9 {
      assert RowPairs(rs, i, j + 1, fid) == row + [(i, j)];
      assert acc + (row + [(i, j)]) == acc + row + [(i, j)];
    } else {
      assert RowPairs(rs, i, j + 1, fid) == row + [];
      assert row + [] == row;
    }
  }

  /** The double loop of `merge_coherent_regions` that collects `to_merge`. */
  method CollectPairs(rs: seq<GabrielRegion>, fid: (QuantumState, QuantumState) -> real) returns (toMerge: seq<(nat, nat)>)
    ensures toMerge == CoherentPairs(rs, fid)
  {
    toMerge := [];
    var i := 0;
    while i < |rs|
      invariant 0 <= i <= |rs|
      invariant toMerge == PairsUpTo(rs, i, fid)
    {
      toMerge := CollectRow(rs, fid, i, toMerge);
      assert PairsUpTo(rs, i + 1, fid) == PairsUpTo(rs, i, fid) + RowPairs(rs, i, |rs|, fid);
      i := i + 1;
    }
  }

  /** The attack probability of two merged regions: their sample-count weighted mean. */
  function MergedProbability(ri: GabrielRegion, rj: GabrielRegion): real
    requires ri.sampleCount + rj.sampleCount > 0
  {
    var total := (ri.sampleCount + rj.sampleCount) as real;
    (ri.sampleCount as real / total) * ri.attackProbability + (rj.sampleCount as real / total) * rj.attackProbability
  }

  lemma MergedProbabilityInRange(ri: GabrielRegion, rj: GabrielRegion)
    requires ri.sampleCount + rj.sampleCount > 0
    requires 0.0 <= ri.attackProbability <= 1.0 && 0.0 <= rj.attackProbability <= 1.0
    ensures 0.0 <= MergedProbability(ri, rj) <= 1.0
  {
    var total := (ri.sampleCount + rj.sampleCount) as real;
    var wi := ri.sampleCount as real / total;
    var wj := rj.sampleCount as real / total;
    assert wi + wj == 1.0 by {
      assert wi + wj == (ri.sampleCount as real + rj.sampleCount as real) / total;
    }
    assert 0.0 <= wj <= 1.0;
    ConvexStaysInRange(ri.attackProbability, rj.attackProbability, wj, 0.0, 1.0);
    assert wi == 1.0 - wj;
  }

  function RemoveAt<T>(s: seq<T>, j: nat): (r: seq<T>)
    requires j < |s|
    ensures |r| == |s| - 1
    ensures forall k :: 0 <= k < j ==> r[k] == s[k]
    ensures forall k :: j <= k < |r| ==> r[k] == s[k + 1]
  {
    s[..j] + s[j + 1..]
  }

  /**
   * One step of the reverse merge loop: when j is still an index, region i
   * takes the summed sample count and the weighted probability (only if
   * that sum is positive) and region j is removed; otherwise nothing
   * happens.
   */
  function MergeOne(rs: seq<GabrielRegion>, p: (nat, nat)): (r: seq<GabrielRegion>)
    requires p.0 < p.1
    ensures p.1 < |rs| ==> |r| == |rs| - 1
    ensures p.1 >= |rs| ==> r == rs
    ensures p.1 < |rs| ==> forall k :: 0 <= k < |r| && k != p.0 ==> r[k] == (if k < p.1 then rs[k] else rs[k + 1])
    ensures p.1 < |rs| ==> r[p.0].quantumCenter == rs[p.0].quantumCenter
    ensures p.1 < |rs| ==> r[p.0].classicalCenter == rs[p.0].classicalCenter
    ensures p.1 < |rs| ==> r[p.0].learningRate == rs[p.0].learningRate
  {
    if p.1 < |rs| then
      var ri := rs[p.0];
      var rj := rs[p.1];
      var total := ri.sampleCount + rj.sampleCount;
      var merged :=
        if total > 0 then rs[p.0 := ri.(attackProbability := MergedProbability(ri, rj), sampleCount := total)]
        else rs;
      RemoveAt(merged, p.1)
    else rs
  }

  predicate OrderedPairs(ps: seq<(nat, nat)>)
  {
    forall k :: 0 <= k < |ps| ==> ps[k].0 < ps[k].1
  }

  /** The pairs processed from the last to the first, as `to_merge.iter().rev()` does. */
  function ApplyMerges(rs: seq<GabrielRegion>, ps: seq<(nat, nat)>): seq<GabrielRegion>
    requires OrderedPairs(ps)
    decreases |ps|
  {
    if |ps| == 0 then rs
    else
      assert OrderedPairs(ps[1..]) by {
        assert forall k :: 0 <= k < |ps[1..]| ==> ps[1..][k] == ps[k + 1];
      }
      MergeOne(ApplyMerges(rs, ps[1..]), ps[0])
  }

  /** The store after `merge_coherent_regions`. */
  function MergeSpec(rs: seq<GabrielRegion>, fid: (QuantumState, QuantumState) -> real): seq<GabrielRegion>
  {
    ApplyMerges(rs, CoherentPairs(rs, fid))
  }

  /** Merging never grows the store, and leaves it unchanged when no pair qualifies. */
  lemma {:induction false} MergeNeverGrows(rs: seq<GabrielRegion>, ps: seq<(nat, nat)>)
    requires OrderedPairs(ps)
    ensures |ApplyMerges(rs, ps)| <= |rs|
    ensures ps == [] ==> ApplyMerges(rs, ps) == rs
    decreases |ps|
  {
    if |ps| > 0 {
      assert forall k :: 0 <= k < |ps[1..]| ==> ps[1..][k] == ps[k + 1];
      MergeNeverGrows(rs, ps[1..]);
    }
  }

  /** Merging keeps every region well formed (the merged probability is a convex combination). */
  lemma {:induction false} MergeKeepsWellFormed(rs: seq<GabrielRegion>, ps: seq<(nat, nat)>)
    requires OrderedPairs(ps) && AllWellFormed(rs)
    ensures AllWellFormed(ApplyMerges(rs, ps))
    decreases |ps|
  {
    if |ps| > 0 {
      assert forall k :: 0 <= k < |ps[1..]| ==> ps[1..][k] == ps[k + 1];
      MergeKeepsWellFormed(rs, ps[1..]);
      var x := ApplyMerges(rs, ps[1..]);
      var p := ps[0];
      if p.1 < |x| {
        var ri := x[p.0];
        var rj := x[p.1];
        assert WellFormed(ri) && WellFormed(rj);
        if ri.sampleCount + rj.sampleCount > 0 {
          MergedProbabilityInRange(ri, rj);
        }
      }
    }
  }

  /** The merged store is no larger and still well formed. */
  lemma MergeSpecKeepsShape(rs: seq<GabrielRegion>, fid: (QuantumState, QuantumState) -> real)
    requires AllWellFormed(rs)
    ensures |MergeSpec(rs, fid)| <= |rs| && AllWellFormed(MergeSpec(rs, fid))
  {
    MergeNeverGrows(rs, CoherentPairs(rs, fid));
    MergeKeepsWellFormed(rs, CoherentPairs(rs, fid));
  }

  /**
   * While the pairs still to be processed all start at or after index m,
   * the regions before m are untouched, region m keeps its quantum centre
   * and stays at index m.
   */
  lemma {:induction false} MergeKeepsPrefix(rs: seq<GabrielRegion>, ps: seq<(nat, nat)>, m: nat)
    requires OrderedPairs(ps) && m < |rs|
    requires forall k :: 0 <= k < |ps| ==> m <= ps[k].0
    ensures m < |ApplyMerges(rs, ps)|
    ensures forall k :: 0 <= k < m ==> ApplyMerges(rs, ps)[k] == rs[k]
    ensures ApplyMerges(rs, ps)[m].quantumCenter == rs[m].quantumCenter
    decreases |ps|
  {
    if |ps| > 0 {
      assert forall k :: 0 <= k < |ps[1..]| ==> ps[1..][k] == ps[k + 1];
      MergeKeepsPrefix(rs, ps[1..], m);
    }
  }

  /**
   * Earlier removals never shift i: when pair t = (i, j) of the collected
   * pairs is processed, the region at index i is still the original region
   * i (same quantum centre), and every region before it is untouched.
   */
  lemma MergeNeverShiftsKeptIndex(rs: seq<GabrielRegion>, fid: (QuantumState, QuantumState) -> real, t: nat)
    requires t < |CoherentPairs(rs, fid)|
    ensures var ps := CoherentPairs(rs, fid);
            var i := ps[t].0;
            OrderedPairs(ps[t + 1..])
            && i < |ApplyMerges(rs, ps[t + 1..])|
            && ApplyMerges(rs, ps[t + 1..])[i].quantumCenter == rs[i].quantumCenter
  {
    var ps := CoherentPairs(rs, fid);
    var rest := ps[t + 1..];
    assert forall k :: 0 <= k < |rest| ==> rest[k] == ps[t + 1 + k];
    assert forall k :: 0 <= k < |rest| ==> PairLess(ps[t], rest[k]);
    MergeKeepsPrefix(rs, rest, ps[t].0);
  }

  /**
   * ... but the removals can shift j.  With five regions and the collected
   * pairs (0,3), (1,2), the pair (1,2) is processed first and removes region
   * 2; the pair (0,3) then merges region 0 with the ORIGINAL region 4 (now
   * at index 3) and removes it, while the original region 3 survives.
   */
  lemma MergeCanShiftRemovedIndex(rs: seq<GabrielRegion>)
    requires |rs| == 5
    ensures var r := ApplyMerges(rs, [(0, 3), (1, 2)]);
            |r| == 3
            && r[2] == rs[3]
            && r[0].attackProbability ==
               (if rs[0].sampleCount + rs[4].sampleCount > 0 then MergedProbability(rs[0], rs[4])
                else rs[0].attackProbability)
  {
    var ps: seq<(nat, nat)> := [(0, 3), (1, 2)];
    assert ps[1..] == [(1, 2)];
    ShiftFirstMerge(rs);
    var x := ApplyMerges(rs, [(1, 2)]);
    assert ApplyMerges(rs, ps) == MergeOne(x, (0, 3));
    MergeOneHead(x, (0, 3));
  }

  /** The first merge processed, (1, 2), moves the original regions 3 and 4 down to indices 2 and 3. */
  lemma ShiftFirstMerge(rs: seq<GabrielRegion>)
    requires |rs| == 5
    ensures var x := ApplyMerges(rs, [(1, 2)]);
            |x| == 4 && x[0] == rs[0] && x[2] == rs[3] && x[3] == rs[4]
  {
    var ps: seq<(nat, nat)> := [(1, 2)];
    assert ps[1..] == [];
    assert ApplyMerges(rs, ps) == MergeOne(rs, (1, 2));
  }

  /** The surviving region of a merge takes the weighted probability when the summed count is positive. */
  lemma MergeOneHead(rs: seq<GabrielRegion>, p: (nat, nat))
    requires p.0 < p.1 < |rs|
    ensures MergeOne(rs, p)[p.0].attackProbability ==
            (if rs[p.0].sampleCount + rs[p.1].sampleCount > 0 then MergedProbability(rs[p.0], rs[p.1])
             else rs[p.0].attackProbability)
  {
  }

  // ---------------------------------------------------------------------
  // Enhanced kernel
  // ---------------------------------------------------------------------

  /** The coherence gradient after n more evolve steps from state `start`. */
  function GradientAfter(gradientAt: nat -> real, start: nat, n: nat): real
  {
    gradientAt(start + n)
  }

  /**
   * Number of `evolve(0.01)` steps the optimiser's loop takes once it has
   * taken k - 1 steps without reaching stability: it stops after the first
   * step whose result is stable (gradient < 0.05), or after 10 steps.
   */
  function StepsUntilStable(gradientAt: nat -> real, start: nat, k: nat): nat
    requires 1 <= k <= 10
    decreases 10 - k
  {
    if GradientAfter(gradientAt, start, k) < 0.05 || k == 10 then k
    else StepsUntilStable(gradientAt, start, k + 1)
  }

  /** Number of evolve steps `optimize` takes from delta-kernel state `start`. */
  function OptimizeSteps(gradientAt: nat -> real, start: nat): nat
  {
    if gradientAt(start) > 0.1 then StepsUntilStable(gradientAt, start, 1) else 0
  }

  lemma {:induction false} StepsUntilStableBounds(gradientAt: nat -> real, start: nat, k: nat)
    requires 1 <= k <= 10
    requires forall n :: 1 <= n < k ==> GradientAfter(gradientAt, start, n) >= 0.05
    ensures var s := StepsUntilStable(gradientAt, start, k);
            k <= s <= 10
            && (forall n :: 1 <= n < s ==> GradientAfter(gradientAt, start, n) >= 0.05)
            && (s == 10 || GradientAfter(gradientAt, start, s) < 0.05)
    decreases 10 - k
  {
    if !(GradientAfter(gradientAt, start, k) < 0.05 || k == 10) {
      StepsUntilStableBounds(gradientAt, start, k + 1);
    }
  }

  /** Conversely, a count s with exactly those properties is the loop's count. */
  lemma {:induction false} StepsUntilStableIs(gradientAt: nat -> real, start: nat, k: nat, s: nat)
    requires 1 <= k <= s <= 10
    requires forall n :: 1 <= n < s ==> GradientAfter(gradientAt, start, n) >= 0.05
    requires s == 10 || GradientAfter(gradientAt, start, s) < 0.05
    ensures StepsUntilStable(gradientAt, start, k) == s
    decreases 10 - k
  {
    if k < s {
      assert GradientAfter(gradientAt, start, k) >= 0.05;
      StepsUntilStableIs(gradientAt, start, k + 1, s);
    }
  }

  /**
   * `optimize` takes no step when the gradient is at most 0.1; otherwise
   * between 1 and 10 steps, stopping at the first stable state.
   */
  lemma OptimizeStepsBounds(gradientAt: nat -> real, start: nat)
    ensures var s := OptimizeSteps(gradientAt, start);
            (gradientAt(start) <= 0.1 ==> s == 0)
            && (gradientAt(start) > 0.1 ==>
                  1 <= s <= 10
                  && (forall n :: 1 <= n < s ==> GradientAfter(gradientAt, start, n) >= 0.05)
                  && (s == 10 || GradientAfter(gradientAt, start, s) < 0.05))
  {
    if gradientAt(start) > 0.1 {
      StepsUntilStableBounds(gradientAt, start, 1);
    }
  }

  datatype EnhancedStats = EnhancedStats(
    baseStats: KernelStats,
    coherenceGradient: real,
    isStable: bool,
    classificationCount: nat)

  class EnhancedKernel {
    const base: Kernel
    /**
     * The delta kernel, seen only through its coherence gradient: the
     * number of `evolve` steps taken so far, and the gradient after n steps.
     */
    var evolutions: nat
    const gradientAt: nat -> real
    var optimizationInterval: nat
    var classificationCount: nat

    ghost predicate Valid()
      reads this, base
    {
      base.Valid()
    }

    /** `EnhancedThronionKernel::new`: interval 100 and no classifications yet. */
    constructor (base: Kernel, gradientAt: nat -> real)
      requires base.Valid()
      ensures Valid()
      ensures this.base == base && this.gradientAt == gradientAt
      ensures evolutions == 0 && optimizationInterval == 100 && classificationCount == 0
    {
      this.base := base;
      this.gradientAt := gradientAt;
      evolutions := 0;
      optimizationInterval := 100;
      classificationCount := 0;
    }

    function CoherenceGradient(): real
      reads this
    {
      gradientAt(evolutions)
    }

    /** `is_stable`, with the fixed tolerance 0.05. */
    predicate IsStable()
      reads this
    {
      gradientAt(evolutions) < 0.05
    }

    /** The first half of `merge_coherent_regions`: the pair scan, which only reads the store. */
    method CollectCoherentPairs() returns (toMerge: seq<(nat, nat)>)
      ensures toMerge == CoherentPairs(base.regions, base.env.fidelity)
    {
      toMerge := CollectPairs(base.regions, base.env.fidelity);
    }

    /**
     * `merge_coherent_regions`: the collected pairs are applied from the
     * last to the first.
     */
    method MergeCoherentRegions()
      requires Valid()
      modifies base
      ensures Valid()
      ensures base.regions == MergeSpec(old(base.regions), base.env.fidelity)
      ensures base.maxRegions == old(base.maxRegions) && base.attackThreshold == old(base.attackThreshold)
      ensures base.learningRate == old(base.learningRate)
    {
      ghost var rs := base.regions;
      var toMerge := CollectCoherentPairs();
      MergeSpecKeepsShape(rs, base.env.fidelity);
      var k := |toMerge|;
      while k > 0
        invariant 0 <= k <= |toMerge|
        invariant base.regions == ApplyMerges(rs, toMerge[k..])
        invariant base.maxRegions == old(base.maxRegions) && base.attackThreshold == old(base.attackThreshold)
        invariant base.learningRate == old(base.learningRate)
      {
        k := k - 1;
        assert toMerge[k..][1..] == toMerge[k + 1..];
        base.MergeStep(toMerge[k]);
      }
      assert toMerge[0..] == toMerge;
    }

    /** One `delta_kernel.evolve(0.01)` step. */
    method Evolve()
      modifies this
      ensures evolutions == old(evolutions) + 1
      ensures optimizationInterval == old(optimizationInterval)
      ensures classificationCount == old(classificationCount)
    {
      evolutions := evolutions + 1;
    }

    /** The evolve loop of `optimize`: at most 10 steps, stopping at the first stable state. */
    method EvolveUntilStable()
      modifies this
      ensures evolutions == old(evolutions) + StepsUntilStable(gradientAt, old(evolutions), 1)
      ensures optimizationInterval == old(optimizationInterval)
      ensures classificationCount == old(classificationCount)
    {
      ghost var start := evolutions;
      var step := 0;
      while step < 10
        invariant 0 <= step <= 10
        invariant evolutions == start + step
        invariant forall n :: 1 <= n <= step ==> GradientAfter(gradientAt, start, n) >= 0.05
        invariant optimizationInterval == old(optimizationInterval)
        invariant classificationCount == old(classificationCount)
      {
        evolutions := evolutions + 1;
        step := step + 1;
        if gradientAt(evolutions) < 0.05 {
          break;
        }
      }
      StepsUntilStableIs(gradientAt, start, 1, step);
    }

    /**
     * `optimize`: when the gradient exceeds 0.1, merge coherent regions
     * and evolve until stable, at most 10 times; otherwise do nothing.
     */
    method Optimize()
      requires Valid()
      modifies this, base
      ensures Valid()
      ensures evolutions == old(evolutions) + OptimizeSteps(gradientAt, old(evolutions))
      ensures base.regions == (if gradientAt(old(evolutions)) > 0.1
                               then MergeSpec(old(base.regions), base.env.fidelity) else old(base.regions))
      ensures optimizationInterval == old(optimizationInterval)
      ensures classificationCount == old(classificationCount)
      ensures base.maxRegions == old(base.maxRegions) && base.attackThreshold == old(base.attackThreshold)
      ensures base.learningRate == old(base.learningRate)
    {
      var gradient := gradientAt(evolutions);
      if gradient > 0.1 {
        MergeCoherentRegions();
        EvolveUntilStable();
      }
    }

    /**
     * `classify`: counts the call, classifies with the base kernel, and
     * optimises when the count is a multiple of the interval.  `%` by a zero
     * interval panics in the source, hence the positive interval.
     */
    method Classify(c: ClassicalSignature) returns (isAttack: bool, resonance: real, idx: Option<nat>)
      requires Valid() && optimizationInterval > 0 && c.totalBytes > 0.0
      modifies this, base
      ensures Valid()
      ensures classificationCount == old(classificationCount) + 1
      ensures optimizationInterval == old(optimizationInterval)
      ensures (isAttack, resonance, idx) == ClassifySpec(old(base.regions), c, base.env)
      ensures classificationCount % optimizationInterval == 0 ==>
                evolutions == old(evolutions) + OptimizeSteps(gradientAt, old(evolutions))
                && base.regions == (if gradientAt(old(evolutions)) > 0.1
                                    then MergeSpec(old(base.regions), base.env.fidelity) else old(base.regions))
      ensures classificationCount % optimizationInterval != 0 ==>
                evolutions == old(evolutions) && base.regions == old(base.regions)
      ensures base.maxRegions == old(base.maxRegions) && base.attackThreshold == old(base.attackThreshold)
      ensures base.learningRate == old(base.learningRate)
    {
      classificationCount := classificationCount + 1;
      isAttack, resonance, idx := base.Classify(c);
      if classificationCount % optimizationInterval == 0 {
        Optimize();
      }
    }

    /** `learn`: the base kernel learns, then the delta kernel evolves one step. */
    method Learn(c: ClassicalSignature, isAttack: bool)
      requires Valid() && base.maxRegions > 0 && c.totalBytes > 0.0
      modifies this, base
      ensures Valid()
      ensures base.maxRegions == old(base.maxRegions)
      ensures base.regions == LearnSpec(old(base.regions), old(base.maxRegions), c, isAttack, base.env)
      ensures evolutions == old(evolutions) + 1
      ensures classificationCount == old(classificationCount)
      ensures optimizationInterval == old(optimizationInterval)
      ensures base.attackThreshold == old(base.attackThreshold) && base.learningRate == old(base.learningRate)
    {
      base.Learn(c, isAttack);
      Evolve();
    }

    /** `stats`: the base statistics, the gradient, stability and the classification count. */
    function Stats(): (st: EnhancedStats)
      reads this, base
      ensures st.baseStats == base.Stats()
      ensures st.isStable <==> st.coherenceGradient < 0.05
      ensures st.classificationCount == classificationCount
    {
      EnhancedStats(base.Stats(), CoherenceGradient(), IsStable(), classificationCount)
    }
  }
}
