/**
 * The resonant absorber layer of QRADIANCE
 * (QRADIANCE-main/src/resonance/absorber.rs): per Metatron node a local
 * field profile F_i and an adaptive threshold theta_i; a packet's score is
 * sigma(<F_i, S(packet)> - theta_i), and a packet scoring below epsilon is
 * absorbed, which lowers theta_i.
 *
 * `SpectralFingerprint::compute` of QRADIANCE is a parameter: its power
 * spectrum is the `spectrum` function value.  `f64::exp` is the `exp`
 * function value.
 */
module ResonantAbsorbers {
  import opened Numerics

  const NUM_NODES: nat := 13
  const THRESHOLD_MIN: real := -10.0
  const THRESHOLD_MAX: real := 10.0
  const INITIAL_THRESHOLD: real := 0.5

  type Packet = seq<bv8>

  /** The three counters of `AbsorberStats`. */
  datatype AbsorberStats = AbsorberStats(totalPackets: nat, packetsAbsorbed: nat, packetsForwarded: nat)

  /** Every processed packet was either absorbed or forwarded. */
  predicate Balanced(s: AbsorberStats)
  {
    s.packetsAbsorbed + s.packetsForwarded == s.totalPackets
  }

  /** The counters of `AbsorberStats::default()`. */
  const ZERO_STATS: AbsorberStats := AbsorberStats(0, 0, 0)

  /** The counters after one packet: `total` and exactly one of `absorbed` / `forwarded` grow by one. */
  function Count(s: AbsorberStats, absorbed: bool): (r: AbsorberStats)
    ensures r.totalPackets == s.totalPackets + 1
    ensures r.packetsAbsorbed + r.packetsForwarded == s.packetsAbsorbed + s.packetsForwarded + 1
    ensures absorbed ==> r.packetsAbsorbed == s.packetsAbsorbed + 1 && r.packetsForwarded == s.packetsForwarded
    ensures !absorbed ==> r.packetsForwarded == s.packetsForwarded + 1 && r.packetsAbsorbed == s.packetsAbsorbed
  {
    if absorbed then s.(packetsAbsorbed := s.packetsAbsorbed + 1, totalPackets := s.totalPackets + 1)
    else s.(packetsForwarded := s.packetsForwarded + 1, totalPackets := s.totalPackets + 1)
  }

  /** Counting a packet keeps the counters balanced. */
  lemma CountKeepsBalance(s: AbsorberStats, absorbed: bool)
    requires Balanced(s)
    ensures Balanced(Count(s, absorbed))
  {
  }

  /** The efficiency eta: 0 before any packet, absorbed / total afterwards; in [0, 1] for balanced counters. */
  function Efficiency(s: AbsorberStats): (r: real)
    ensures Balanced(s) ==> 0.0 <= r <= 1.0
    ensures s.totalPackets == 0 ==> r == 0.0
  {
    if s.totalPackets == 0 then 0.0
    else
      Ratio(s.packetsAbsorbed as real, s.totalPackets as real);
      s.packetsAbsorbed as real / s.totalPackets as real
  }

  /** The false-positive rate: 0 while nothing was absorbed, legitimate / absorbed afterwards. */
  function FalsePositives(s: AbsorberStats, legitimateCount: nat): (r: real)
    ensures r >= 0.0
    ensures s.packetsAbsorbed == 0 ==> r == 0.0
    ensures s.packetsAbsorbed > 0 && legitimateCount <= s.packetsAbsorbed ==> r <= 1.0
  {
    if s.packetsAbsorbed == 0 then 0.0
    else
      Ratio(legitimateCount as real, s.packetsAbsorbed as real);
      legitimateCount as real / s.packetsAbsorbed as real
  }

  /** a / n is non-negative, times n gives a back, and is at most 1 when a <= n. */
  lemma Ratio(a: real, n: real)
    requires 0.0 <= a && n > 0.0
    ensures 0.0 <= a / n && (a / n) * n == a
    ensures a <= n ==> a / n <= 1.0
  {
    if a > 0.0 {
      Quotient(a, n);
    }
    if a < n {
      DivideStrict(a, n, n);
    }
  }

  /** Both rates are the quotients they claim: multiplied back by their denominator they give the numerator. */
  lemma RatesAreQuotients(s: AbsorberStats, legitimateCount: nat)
    ensures s.totalPackets > 0 ==> Efficiency(s) * (s.totalPackets as real) == s.packetsAbsorbed as real
    ensures s.packetsAbsorbed > 0 ==> FalsePositives(s, legitimateCount) * (s.packetsAbsorbed as real) == legitimateCount as real
  {
    if s.totalPackets > 0 {
      Ratio(s.packetsAbsorbed as real, s.totalPackets as real);
    }
    if s.packetsAbsorbed > 0 {
      Ratio(legitimateCount as real, s.packetsAbsorbed as real);
    }
  }

  /** The source's efficiency test: 95 of 100 absorbed is 0.95; the other 5 forwarded keep the counters balanced. */
  lemma EfficiencyExample()
    ensures Balanced(AbsorberStats(100, 95, 5)) && Efficiency(AbsorberStats(100, 95, 5)) == 0.95
    ensures Efficiency(ZERO_STATS) == 0.0 && FalsePositives(ZERO_STATS, 7) == 0.0
  {
    assert Efficiency(AbsorberStats(100, 95, 5)) == 95.0 / 100.0;
  }

  /** sigma(x) = 1 / (1 + e^-x): strictly between 0 and 1, one half at 0, at least one half for x >= 0. */
  function Sigmoid(x: real, exp: real -> real): (r: real)
    requires IsExp(exp)
    ensures 0.0 < r < 1.0
    ensures x == 0.0 ==> r == 0.5
    ensures x >= 0.0 ==> r >= 0.5
  {
    var e := exp(-x);
    Reciprocal(1.0 + e);
    1.0 / (1.0 + e)
  }

  /** 1 / d for d > 1 lies in (0, 1), and is at least one half when d <= 2. */
  lemma Reciprocal(d: real)
    requires d > 1.0
    ensures 0.0 < 1.0 / d < 1.0
    ensures d <= 2.0 ==> 1.0 / d >= 0.5
  {
    Quotient(1.0, d);
    DivideStrict(1.0, d, d);
    if d <= 2.0 {
      var q := 1.0 / d;
      assert q * d == 1.0;
    }
  }

  /** `a.iter().zip(b.iter()).map(|(f, s)| f * s).sum()`: the inner product over the shorter length. */
  function Dot(a: seq<real>, b: seq<real>): real
  {
    if |a| == 0 || |b| == 0 then 0.0 else a[0] * b[0] + Dot(a[1..], b[1..])
  }

  /** The zip is symmetric, and a zero field has inner product 0 with any spectrum. */
  lemma {:induction false} DotProperties(a: seq<real>, b: seq<real>)
    ensures Dot(a, b) == Dot(b, a)
    ensures (forall k :: 0 <= k < |a| ==> a[k] == 0.0) ==> Dot(a, b) == 0.0
  {
    if |a| > 0 && |b| > 0 {
      DotProperties(a[1..], b[1..]);
    }
  }

  /** theta -= learning_rate * energy / 1000, then clamped into [-10, 10]. */
  function ThresholdStep(theta: real, learningRate: real, energy: real): (r: real)
    ensures THRESHOLD_MIN <= r <= THRESHOLD_MAX
  {
    Clamp(theta - learningRate * energy / 1000.0, THRESHOLD_MIN, THRESHOLD_MAX)
  }

  /** A non-negative energy at a non-negative rate never raises an in-range threshold; a zero step keeps it. */
  lemma ThresholdStepMonotone(theta: real, learningRate: real, energy: real)
    requires THRESHOLD_MIN <= theta <= THRESHOLD_MAX && learningRate >= 0.0 && energy >= 0.0
    ensures ThresholdStep(theta, learningRate, energy) <= theta
    ensures learningRate * energy == 0.0 ==> ThresholdStep(theta, learningRate, energy) == theta
  {
    MulNonneg(learningRate, energy);
  }

  /** The source's threshold test: at rate 0.01 an energy of 100 moves 0.5 to 0.499. */
  lemma ThresholdStepChanges()
    ensures ThresholdStep(INITIAL_THRESHOLD, 0.01, 100.0) == 0.499
    ensures ThresholdStep(INITIAL_THRESHOLD, 0.01, 100.0) != INITIAL_THRESHOLD
  {
  }

  /**
   * The exponential moving average of `learn_legitimate_pattern`: over the
   * zipped length each entry becomes (1 - w) f + w s; entries past the end
   * of the spectrum stay as they were.
   */
  function Ema(field: seq<real>, spectrum: seq<real>, weight: real): (r: seq<real>)
    ensures |r| == |field|
    ensures forall k :: 0 <= k < |field| && k >= |spectrum| ==> r[k] == field[k]
    ensures weight == 0.0 ==> r == field
  {
    var r := seq(|field|, k requires 0 <= k < |field| =>
                 if k < |spectrum| then (1.0 - weight) * field[k] + weight * spectrum[k] else field[k]);
    assert weight == 0.0 ==> forall k :: 0 <= k < |field| ==> r[k] == field[k];
    r
  }

  /** With a weight in [0, 1], field and spectrum entries in [lo, hi] give blended entries in [lo, hi]. */
  lemma EmaStaysInRange(field: seq<real>, spectrum: seq<real>, weight: real, lo: real, hi: real)
    requires 0.0 <= weight <= 1.0
    requires forall k :: 0 <= k < |field| ==> lo <= field[k] <= hi
    requires forall k :: 0 <= k < |spectrum| ==> lo <= spectrum[k] <= hi
    ensures forall k :: 0 <= k < |field| ==> lo <= Ema(field, spectrum, weight)[k] <= hi
  {
    forall k | 0 <= k < |field| && k < |spectrum|
      ensures lo <= Ema(field, spectrum, weight)[k] <= hi
    {
      ConvexStaysInRange(field[k], spectrum[k], weight, lo, hi);
    }
  }

  /** With weight 1 the zipped entries take the spectrum's values. */
  lemma EmaFullWeight(field: seq<real>, spectrum: seq<real>)
    ensures forall k :: 0 <= k < |field| && k < |spectrum| ==> Ema(field, spectrum, 1.0)[k] == spectrum[k]
  {
  }

  class ResonantAbsorber {
    const localFields: array<seq<real>>
    const thresholds: array<real>
    const learningRate: real
    const spectrumSize: nat
    var stats: AbsorberStats
    const exp: real -> real
    const spectrum: (Packet, nat) -> seq<real>

    /** One field and one threshold per node, thresholds in [-10, 10]; the two arrays are distinct objects. */
    ghost predicate Valid()
      reads this, thresholds
    {
      localFields.Length == NUM_NODES && thresholds.Length == NUM_NODES
      && (forall i :: 0 <= i < NUM_NODES ==> THRESHOLD_MIN <= thresholds[i] <= THRESHOLD_MAX)
      && IsExp(exp)
    }

    /** `new`: 13 zero fields of `spectrum_size` entries, all thresholds 0.5, zero counters. */
    constructor (spectrumSize: nat, learningRate: real, exp: real -> real, spectrum: (Packet, nat) -> seq<real>)
      requires IsExp(exp)
      ensures Valid() && fresh(localFields) && fresh(thresholds)
      ensures this.spectrumSize == spectrumSize && this.learningRate == learningRate
      ensures this.exp == exp && this.spectrum == spectrum
      ensures forall i :: 0 <= i < NUM_NODES ==> localFields[i] == Zeros(spectrumSize)
      ensures forall i :: 0 <= i < NUM_NODES ==> thresholds[i] == INITIAL_THRESHOLD
      ensures stats == ZERO_STATS
    {
      var z := Zeros(spectrumSize);
      localFields := new seq<real>[NUM_NODES](_ => z);
      thresholds := new real[NUM_NODES](_ => INITIAL_THRESHOLD);
      this.learningRate := learningRate;
      this.spectrumSize := spectrumSize;
      stats := ZERO_STATS;
      this.exp := exp;
      this.spectrum := spectrum;
    }

    /** `resonance_score`: sigma(<F_node, S(packet)> - theta_node), strictly inside (0, 1). */
    function ResonanceScore(packet: Packet, node: nat): (r: real)
      reads this, localFields, thresholds
      requires Valid() && node < NUM_NODES
      ensures 0.0 < r < 1.0
      ensures r == Sigmoid(Dot(localFields[node], spectrum(packet, spectrumSize)) - thresholds[node], exp)
    {
      Sigmoid(Dot(localFields[node], spectrum(packet, spectrumSize)) - thresholds[node], exp)
    }

    /** A node whose field is all zero scores sigma(-theta); at the initial 0.5 that is below one half. */
    lemma ZeroFieldScore(packet: Packet, node: nat)
      requires Valid() && node < NUM_NODES
      requires forall k :: 0 <= k < |localFields[node]| ==> localFields[node][k] == 0.0
      ensures ResonanceScore(packet, node) == Sigmoid(-thresholds[node], exp)
      ensures thresholds[node] <= 0.0 ==> ResonanceScore(packet, node) >= 0.5
    {
      DotProperties(localFields[node], spectrum(packet, spectrumSize));
    }

    /** `should_absorb`: the score is below epsilon. */
    predicate ShouldAbsorb(packet: Packet, node: nat, epsilonRes: real)
      reads this, localFields, thresholds
      requires Valid() && node < NUM_NODES
    {
      ResonanceScore(packet, node) < epsilonRes
    }

    /** An epsilon above 1 absorbs every packet, one at or below 0 none. */
    lemma ShouldAbsorbExtremes(packet: Packet, node: nat, epsilonRes: real)
      requires Valid() && node < NUM_NODES
      ensures epsilonRes >= 1.0 ==> ShouldAbsorb(packet, node, epsilonRes)
      ensures epsilonRes <= 0.0 ==> !ShouldAbsorb(packet, node, epsilonRes)
    {
    }

    /** `update_threshold`: one clamped step on theta_node; the other thresholds are untouched. */
    method UpdateThreshold(node: nat, absorbedEnergy: real)
      requires Valid() && node < NUM_NODES
      modifies thresholds
      ensures Valid()
      ensures thresholds[node] == ThresholdStep(old(thresholds[node]), learningRate, absorbedEnergy)
      ensures forall i :: 0 <= i < NUM_NODES && i != node ==> thresholds[i] == old(thresholds[i])
    {
      thresholds[node] := thresholds[node] - learningRate * absorbedEnergy / 1000.0;
      thresholds[node] := Clamp(thresholds[node], THRESHOLD_MIN, THRESHOLD_MAX);
    }

    /**
     * `process_packet`: absorbs exactly when the score is below epsilon.
     * An absorbed packet counts as absorbed and lowers theta_node by its
     * length; a forwarded one counts as forwarded; both count in the total.
     */
    method ProcessPacket(packet: Packet, node: nat, epsilonRes: real) returns (absorbed: bool, score: real)
      requires Valid() && node < NUM_NODES
      modifies this, thresholds
      ensures Valid()
      ensures score == old(ResonanceScore(packet, node)) && 0.0 < score < 1.0
      ensures absorbed <==> score < epsilonRes
      ensures stats == Count(old(stats), absorbed)
      ensures absorbed ==> thresholds[node] == ThresholdStep(old(thresholds[node]), learningRate, |packet| as real)
      ensures !absorbed ==> thresholds[..] == old(thresholds[..])
      ensures forall i :: 0 <= i < NUM_NODES && i != node ==> thresholds[i] == old(thresholds[i])
      ensures Balanced(old(stats)) ==> Balanced(stats)
    {
      score := ResonanceScore(packet, node);
      absorbed := score < epsilonRes;
      if absorbed {
        stats := stats.(packetsAbsorbed := stats.packetsAbsorbed + 1);
        UpdateThreshold(node, |packet| as real);
      } else {
        stats := stats.(packetsForwarded := stats.packetsForwarded + 1);
      }
      stats := stats.(totalPackets := stats.totalPackets + 1);
    }

    /** `learn_legitimate_pattern`: the moving average on F_node only, over the zipped length. */
    method LearnLegitimatePattern(packet: Packet, node: nat, weight: real)
      requires Valid() && node < NUM_NODES
      modifies localFields
      ensures Valid()
      ensures localFields[node] == Ema(old(localFields[node]), spectrum(packet, spectrumSize), weight)
      ensures forall i :: 0 <= i < NUM_NODES && i != node ==> localFields[i] == old(localFields[i])
    {
      var s := spectrum(packet, spectrumSize);
      var field := localFields[node];
      var n := if |field| < |s| then |field| else |s|;
      for k := 0 to n
        invariant |field| == |old(localFields[node])|
        invariant forall m :: 0 <= m < |field| ==>
                    field[m] == if m < k then (1.0 - weight) * old(localFields[node])[m] + weight * s[m]
                                else old(localFields[node])[m]
      {
        field := field[k := (1.0 - weight) * field[k] + weight * s[k]];
      }
      forall m | 0 <= m < |field|
        ensures field[m] == Ema(old(localFields[node]), s, weight)[m]
      {
      }
      assert field == Ema(old(localFields[node]), s, weight);
      localFields[node] := field;
    }

    /** `absorption_efficiency`: the efficiency of the counters. */
    function AbsorptionEfficiency(): (r: real)
      reads this
      ensures r == Efficiency(stats)
      ensures Balanced(stats) ==> 0.0 <= r <= 1.0
    {
      if stats.totalPackets == 0 then 0.0 else stats.packetsAbsorbed as real / stats.totalPackets as real
    }

    /** `false_positive_rate`: the false-positive rate of the counters. */
    function FalsePositiveRate(legitimateCount: nat): (r: real)
      reads this
      ensures r == FalsePositives(stats, legitimateCount)
    {
      if stats.packetsAbsorbed == 0 then 0.0 else legitimateCount as real / stats.packetsAbsorbed as real
    }

    /** `reset_stats`: zero counters; fields and thresholds are untouched. */
    method ResetStats()
      modifies this
      ensures stats == ZERO_STATS
    {
      stats := ZERO_STATS;
    }
  }

  /** `Default`: 256 spectrum bins, learning rate 0.01. */
  method DefaultAbsorber(exp: real -> real, spectrum: (Packet, nat) -> seq<real>) returns (a: ResonantAbsorber)
    requires IsExp(exp)
    ensures fresh(a) && fresh(a.thresholds) && a.Valid() && a.spectrumSize == 256 && a.learningRate == 0.01
    ensures a.stats == ZERO_STATS
  {
    a := new ResonantAbsorber(256, 0.01, exp, spectrum);
  }

  /**
   * The source's statistics test: whatever the two decisions, two packets
   * through fresh counters give a total of 2, split between absorbed and
   * forwarded.
   */
  lemma TwoPacketsCounted(first: bool, second: bool)
    ensures var s := Count(Count(ZERO_STATS, first), second);
            s.totalPackets == 2 && s.packetsAbsorbed + s.packetsForwarded == 2
  {
  }

}
