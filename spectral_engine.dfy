/**
 * The spectral engine of Ophanion (ophanion-main/src/spectral.rs): the
 * FFT fingerprint of a circuit's cell timings, eight timing statistics,
 * the 128-entry signature that combines both, and the entropy of a
 * 10-bin timing histogram.  The FFT itself is an oracle that only keeps
 * the length of its input and yields non-negative magnitudes.
 */
module SpectralEngines {
  import opened Numerics
  import opened OphanionCore
  import opened IndexSort

  /** Number of spectrum bins kept in a signature. */
  const FREQUENCY_BINS: nat := 120

  /** Length of a signature. */
  const SIGNATURE_LEN: nat := 128

  /** Number of statistical features. */
  const FEATURE_COUNT: nat := 8

  /** Number of histogram bins of `timing_entropy`. */
  const HISTOGRAM_BINS: nat := 10

  /** The magnitudes of the forward FFT of a buffer: as many as there are inputs, none negative. */
  ghost predicate IsFftNorm(fft: seq<real> -> seq<real>)
  {
    forall x :: |fft(x)| == |x| && forall k :: 0 <= k < |fft(x)| ==> fft(x)[k] >= 0.0
  }

  function NextPowerOfTwoFrom(p: nat, n: nat): (r: nat)
    requires IsPowerOfTwo(p) && (p == 1 || p / 2 < n)
    ensures IsPowerOfTwo(r) && r >= n && r >= p
    ensures r == 1 || r / 2 < n
    decreases n - p
  {
    if p >= n then p
    else
      assert (2 * p) / 2 == p;
      NextPowerOfTwoFrom(2 * p, n)
  }

  /**
   * `usize::next_power_of_two`: the least power of two that is at least
   * `n`, and 1 for `n` = 0.
   */
  function NextPowerOfTwo(n: nat): (r: nat)
    ensures IsPowerOfTwo(r) && r >= n && r >= 1
    ensures r == 1 || r / 2 < n
  {
    NextPowerOfTwoFrom(1, n)
  }

  /** Seven timings pad to eight FFT inputs, and a power of two pads to itself. */
  lemma NextPowerOfTwoExamples()
    ensures NextPowerOfTwo(0) == 1 && NextPowerOfTwo(6) == 8 && NextPowerOfTwo(8) == 8
  {
    assert IsPowerOfTwo(8) by {
      assert IsPowerOfTwo(4) by {
        assert IsPowerOfTwo(2);
      }
    }
  }

  /** The frequency grid i / len of a padded buffer. */
  function FrequencyGrid(len: nat): (r: seq<real>)
    requires len > 0
    ensures |r| == len
    ensures forall i :: 0 <= i < len ==> 0.0 <= r[i] < 1.0
    ensures forall i, j :: 0 <= i < j < len ==> r[i] < r[j]
  {
    var r := seq(len, i requires 0 <= i < len => i as real / len as real);
    assert forall i, j :: 0 <= i < j < len ==> r[i] < r[j] by {
      forall i, j | 0 <= i < j < len
        ensures r[i] < r[j]
      {
        DivideStrict(i as real, j as real, len as real);
      }
    }
    assert forall i :: 0 <= i < len ==> 0.0 <= r[i] < 1.0 by {
      forall i | 0 <= i < len
        ensures 0.0 <= r[i] < 1.0
      {
        GridPointInUnit(i as real, len as real);
      }
    }
    r
  }

  /** A grid point i / len with 0 <= i < len lies in [0, 1). */
  lemma GridPointInUnit(i: real, len: real)
    requires 0.0 <= i < len
    ensures 0.0 <= i / len < 1.0
  {
    DivideStrict(i, len, len);
    DivideNonneg(i, len);
    assert len / len == 1.0;
  }

  lemma DivideNonneg(a: real, n: real)
    requires a >= 0.0 && n > 0.0
    ensures a / n >= 0.0
  {
    if a > 0.0 {
      Quotient(a, n);
    }
  }

  /**
   * `compute_fingerprint`: [0.0] / [0.0] without timings; otherwise the
   * timings zero-padded to the next power of two, transformed, with the
   * frequency grid i / len.
   */
  function Fingerprint(timings: seq<real>, fft: seq<real> -> seq<real>): (r: Spectrum)
    requires IsFftNorm(fft)
    ensures |timings| == 0 ==> r == Spectrum([0.0], [0.0])
    ensures |timings| > 0 ==>
              |r.frequencies| == |r.amplitudes| == NextPowerOfTwo(|timings|)
              && IsPowerOfTwo(|r.amplitudes|) && |r.amplitudes| >= |timings|
    ensures |r.amplitudes| >= 1 && forall k :: 0 <= k < |r.amplitudes| ==> r.amplitudes[k] >= 0.0
    ensures forall i :: 0 <= i < |r.frequencies| ==> 0.0 <= r.frequencies[i] < 1.0
  {
    if |timings| == 0 then Spectrum([0.0], [0.0])
    else
      var paddedLen := NextPowerOfTwo(|timings|);
      var buffer := timings + Zeros(paddedLen - |timings|);
      Spectrum(FrequencyGrid(paddedLen), fft(buffer))
  }

  /** The smallest timing, the value of a `fold(INFINITY, f64::min)`. */
  function MinOf(s: seq<real>): (r: real)
    requires |s| > 0
    ensures forall k :: 0 <= k < |s| ==> r <= s[k]
    ensures exists k :: 0 <= k < |s| && r == s[k]
  {
    if |s| == 1 then s[0]
    else
      var m := MinOf(s[..|s| - 1]);
      assert forall k :: 0 <= k < |s| - 1 ==> s[..|s| - 1][k] == s[k];
      Min(m, s[|s| - 1])
  }

  /** The greatest timing, the value of a `fold(NEG_INFINITY, f64::max)`. */
  function MaxOf(s: seq<real>): (r: real)
    requires |s| > 0
    ensures forall k :: 0 <= k < |s| ==> s[k] <= r
    ensures exists k :: 0 <= k < |s| && r == s[k]
  {
    if |s| == 1 then s[0]
    else
      var m := MaxOf(s[..|s| - 1]);
      assert forall k :: 0 <= k < |s| - 1 ==> s[..|s| - 1][k] == s[k];
      Max(m, s[|s| - 1])
  }

  /** A copy of the timings in ascending order (a stable `sort_by` of the values). */
  function Sorted(s: seq<real>): (r: seq<real>)
    ensures |r| == |s|
    ensures forall a, b :: 0 <= a <= b < |r| ==> r[a] <= r[b]
    ensures forall a :: 0 <= a < |r| ==> exists k :: 0 <= k < |s| && r[a] == s[k]
    ensures exists order: seq<nat> :: IsPermutation(order, |s|) && |order| == |r|
              && forall a :: 0 <= a < |r| ==> order[a] < |s| && r[a] == s[order[a]]
  {
    var order := SortIndices(s, |s|);
    OrderedDistinct(s, order);
    var r := seq(|s|, a requires 0 <= a < |s| => s[order[a]]);
    assert forall a, b :: 0 <= a < b < |r| ==> r[a] <= r[b] by {
      forall a, b | 0 <= a < b < |r|
        ensures r[a] <= r[b]
      {
        assert Before(s, order[a], order[b]);
      }
    }
    r
  }

  /** The quartile positions of `extract_features` are valid indices of a non-empty vector. */
  lemma QuartileIndicesInRange(n: nat)
    requires n > 0
    ensures n / 4 <= 3 * n / 4 < n
  {
  }

  /** A mean lies between the bounds of what it averages. */
  lemma MeanBetween(total: real, n: real, lo: real, hi: real)
    requires n > 0.0 && lo * n <= total <= hi * n
    ensures lo <= total / n <= hi
  {
    var m := total / n;
    assert m * n == total;
    if m < lo {
      MulPos(lo - m, n);
    }
    if m > hi {
      MulPos(m - hi, n);
    }
  }

  /** The mean, the standard deviation and the variance of a non-empty timing vector. */
  function Moments(t: seq<real>, sqrt: real -> real): (r: (real, real, real))
    requires |t| > 0 && IsSqrt(sqrt)
    ensures MinOf(t) <= r.0 <= MaxOf(t)
    ensures r.1 >= 0.0 && r.2 >= 0.0
    ensures r.1 == 0.0 <==> r.2 == 0.0
  {
    var mean := Mean(t);
    var variance := Variance(t, mean);
    (mean, sqrt(variance), variance)
  }

  /** The mean of a non-empty vector, between its minimum and maximum. */
  function Mean(t: seq<real>): (m: real)
    requires |t| > 0
    ensures MinOf(t) <= m <= MaxOf(t)
  {
    MeanWithinBounds(t);
    Sum(t) / |t| as real
  }

  lemma {:induction false} MeanWithinBounds(t: seq<real>)
    requires |t| > 0
    ensures MinOf(t) <= Sum(t) / |t| as real <= MaxOf(t)
  {
    MeanOfBounded(t, MinOf(t), MaxOf(t));
  }

  /** The mean of entries that all lie in [lo, hi] lies there too. */
  lemma MeanOfBounded(t: seq<real>, lo: real, hi: real)
    requires |t| > 0 && forall k :: 0 <= k < |t| ==> lo <= t[k] <= hi
    ensures lo <= Sum(t) / |t| as real <= hi
  {
    SumBounds(t, lo, hi);
    MeanBetween(Sum(t), |t| as real, lo, hi);
  }

  /** The population variance about `mean`: the mean squared deviation, never negative. */
  function Variance(t: seq<real>, mean: real): (v: real)
    requires |t| > 0
    ensures v >= 0.0
  {
    var deviations := SumSqDiff(t, seq(|t|, k => mean));
    DivideNonneg(deviations, |t| as real);
    deviations / |t| as real
  }

  /**
   * `extract_features`: mean, standard deviation, min, max, inter-quartile
   * range, variance, age and bytes per second; eight zeros without timings.
   * The circuit's age (`created_at.elapsed()`) is passed in as `elapsed`.
   */
  function Features(timings: seq<real>, totalBytes: nat, elapsed: real, sqrt: real -> real): (r: seq<real>)
    requires IsSqrt(sqrt)
    ensures |r| == FEATURE_COUNT
    ensures |timings| == 0 ==> r == Zeros(FEATURE_COUNT)
    ensures |timings| > 0 ==>
              r[2] == MinOf(timings) && r[3] == MaxOf(timings) && r[2] <= r[0] <= r[3]
              && r[1] >= 0.0 && r[4] >= 0.0 && r[5] >= 0.0
              && r[6] == elapsed && r[7] == totalBytes as real / Max(elapsed, 1.0)
  {
    if |timings| == 0 then Zeros(FEATURE_COUNT)
    else
      var m := Moments(timings, sqrt);
      var sorted := Sorted(timings);
      QuartileIndicesInRange(|sorted|);
      var q1 := sorted[|sorted| / 4];
      var q3 := sorted[3 * |sorted| / 4];
      [m.0, m.1, MinOf(timings), MaxOf(timings), q3 - q1, m.2, elapsed, totalBytes as real / Max(elapsed, 1.0)]
  }

  /** The amplitudes followed by the features, before padding. */
  function RawSignature(spectrum: Spectrum, features: seq<real>): seq<real>
  {
    var bins := if |spectrum.amplitudes| <= FREQUENCY_BINS then spectrum.amplitudes
                else spectrum.amplitudes[..FREQUENCY_BINS];
    bins + features
  }

  /** The raw signature padded with zeros to the signature length. */
  function PaddedSignature(raw: seq<real>): (r: seq<real>)
    requires |raw| <= SIGNATURE_LEN
    ensures |r| == SIGNATURE_LEN && r[..|raw|] == raw
    ensures forall k :: |raw| <= k < SIGNATURE_LEN ==> r[k] == 0.0
  {
    raw + Zeros(SIGNATURE_LEN - |raw|)
  }

  /** Every entry divided by the norm. */
  function Scaled(s: seq<real>, norm: real): (r: seq<real>)
    requires norm > 0.0
    ensures |r| == |s| && forall k :: 0 <= k < |s| ==> r[k] == s[k] / norm
  {
    seq(|s|, k requires 0 <= k < |s| => s[k] / norm)
  }

  /**
   * The signature of `create_signature`: at most 120 spectrum bins, the
   * eight features, zero padding to 128, divided by its Euclidean norm
   * when that norm is positive.
   */
  function Signature(circuit: TorCircuitMetadata, elapsed: real, fft: seq<real> -> seq<real>, sqrt: real -> real): (r: seq<real>)
    requires IsFftNorm(fft) && IsSqrt(sqrt)
    ensures |r| == SIGNATURE_LEN
  {
    var raw := RawSignature(Fingerprint(circuit.cellTimings, fft), Features(circuit.cellTimings, circuit.totalBytes, elapsed, sqrt));
    var padded := PaddedSignature(raw);
    var norm := sqrt(SumSq(padded));
    if norm > 0.0 then Scaled(padded, norm) else padded
  }

  /**
   * The layout of a signature before normalisation: the first
   * min(120, |amplitudes|) entries are amplitudes, the next eight the
   * features, and the rest zero.
   */
  lemma {:induction false} SignatureLayout(spectrum: Spectrum, features: seq<real>)
    requires |features| == FEATURE_COUNT
    ensures var raw := RawSignature(spectrum, features);
            var bins := if |spectrum.amplitudes| <= FREQUENCY_BINS then |spectrum.amplitudes| else FREQUENCY_BINS;
            |raw| == bins + FEATURE_COUNT <= SIGNATURE_LEN
            && (forall k :: 0 <= k < bins ==> raw[k] == spectrum.amplitudes[k])
            && (forall k :: 0 <= k < FEATURE_COUNT ==> raw[bins + k] == features[k])
  {
  }

  /** A signature whose padded form is all zeros is returned unchanged. */
  lemma ZeroSignatureUnchanged(circuit: TorCircuitMetadata, elapsed: real, fft: seq<real> -> seq<real>, sqrt: real -> real)
    requires IsFftNorm(fft) && IsSqrt(sqrt)
    requires var raw := RawSignature(Fingerprint(circuit.cellTimings, fft), Features(circuit.cellTimings, circuit.totalBytes, elapsed, sqrt));
             |raw| <= SIGNATURE_LEN && forall k :: 0 <= k < |raw| ==> raw[k] == 0.0
    ensures Signature(circuit, elapsed, fft, sqrt) == Zeros(SIGNATURE_LEN)
  {
    var raw := RawSignature(Fingerprint(circuit.cellTimings, fft), Features(circuit.cellTimings, circuit.totalBytes, elapsed, sqrt));
    var padded := PaddedSignature(raw);
    assert forall k :: 0 <= k < SIGNATURE_LEN ==> padded[k] == 0.0 by {
      forall k | 0 <= k < SIGNATURE_LEN
        ensures padded[k] == 0.0
      {
        if k < |raw| {
          assert padded[..|raw|][k] == raw[k];
        }
      }
    }
    assert padded == Zeros(SIGNATURE_LEN);
  }

  /**
   * The histogram bin of a timing: the scaled offset times 9.99, floored,
   * cast to `usize` (which saturates at 0) and capped at 9.
   */
  function Bin(t: real, lo: real, range: real): (b: nat)
    requires range > 0.0
    ensures b < HISTOGRAM_BINS
  {
    var x := ((t - lo) / range * 9.99).Floor;
    if x < 0 then 0 else if x > 9 then 9 else x as nat
  }

  /** The histogram of a prefix of the timings, filled one timing at a time. */
  function Histogram(ts: seq<real>, lo: real, range: real): (h: seq<nat>)
    requires range > 0.0
    ensures |h| == HISTOGRAM_BINS
  {
    if |ts| == 0 then seq(HISTOGRAM_BINS, b => 0)
    else
      var h := Histogram(ts[..|ts| - 1], lo, range);
      var b := Bin(ts[|ts| - 1], lo, range);
      h[b := h[b] + 1]
  }

  function NatSum(h: seq<nat>): nat
  {
    if |h| == 0 then 0 else NatSum(h[..|h| - 1]) + h[|h| - 1]
  }

  lemma {:induction false} NatSumUpdate(h: seq<nat>, i: nat, v: nat)
    requires i < |h|
    ensures NatSum(h[i := v]) == NatSum(h) - h[i] + v
    decreases |h|
  {
    var n := |h|;
    if i == n - 1 {
      assert h[i := v][..n - 1] == h[..n - 1];
    } else {
      assert h[i := v][..n - 1] == h[..n - 1][i := v];
      NatSumUpdate(h[..n - 1], i, v);
    }
  }

  lemma {:induction false} NatSumZeros(n: nat)
    ensures NatSum(seq(n, b => 0)) == 0
  {
    if n > 0 {
      assert seq(n, b => 0)[..n - 1] == seq(n - 1, b => 0);
      NatSumZeros(n - 1);
    }
  }

  lemma {:induction false} NatSumBounds(h: seq<nat>, i: nat)
    requires i < |h|
    ensures h[i] <= NatSum(h)
    decreases |h|
  {
    if i < |h| - 1 {
      NatSumBounds(h[..|h| - 1], i);
    }
  }

  /** The histogram counts every timing exactly once. */
  lemma {:induction false} HistogramCountsAll(ts: seq<real>, lo: real, range: real)
    requires range > 0.0
    ensures NatSum(Histogram(ts, lo, range)) == |ts|
    decreases |ts|
  {
    if |ts| == 0 {
      NatSumZeros(HISTOGRAM_BINS);
    } else {
      var h := Histogram(ts[..|ts| - 1], lo, range);
      var b := Bin(ts[|ts| - 1], lo, range);
      HistogramCountsAll(ts[..|ts| - 1], lo, range);
      NatSumUpdate(h, b, h[b] + 1);
    }
  }

  /** The entropy contribution -p log2 p of the non-empty bins among the first `n`. */
  function EntropyOf(h: seq<nat>, n: nat, total: real, log2: real -> real): real
    requires n <= |h| && total > 0.0
  {
    if n == 0 then 0.0
    else
      var c := h[n - 1];
      var rest := EntropyOf(h, n - 1, total, log2);
      if c > 0 then var p := c as real / total; rest + -p * log2(p) else rest
  }

  /** With counts that are at most the total, every term and so the entropy is non-negative. */
  lemma {:induction false} EntropyNonneg(h: seq<nat>, n: nat, total: real, log2: real -> real)
    requires n <= |h| && total > 0.0 && IsLog(log2)
    requires forall b :: 0 <= b < |h| ==> h[b] as real <= total
    ensures EntropyOf(h, n, total, log2) >= 0.0
    decreases n
  {
    if n > 0 {
      EntropyNonneg(h, n - 1, total, log2);
      var c := h[n - 1];
      if c > 0 {
        var p := c as real / total;
        Quotient(c as real, total);
        assert p <= 1.0 by {
          MeanBetween(c as real, total, 0.0, 1.0);
        }
        MulNonneg(p, -log2(p));
      }
    }
  }

  /** The histogram loop of `timing_entropy`: one timing at a time into its bin. */
  method FillHistogram(timings: seq<real>, lo: real, range: real) returns (hist: seq<nat>)
    requires range > 0.0
    ensures hist == Histogram(timings, lo, range)
  {
    hist := seq(HISTOGRAM_BINS, b => 0);
    var i := 0;
    while i < |timings|
      invariant 0 <= i <= |timings|
      invariant hist == Histogram(timings[..i], lo, range)
    {
      var bin := Bin(timings[i], lo, range);
      assert timings[..i + 1][..i] == timings[..i];
      hist := hist[bin := hist[bin] + 1];
      i := i + 1;
    }
    assert timings[..i] == timings;
  }

  /** `timing_entropy`: 0 without timings, else the entropy of the 10-bin histogram. */
  function Entropy(timings: seq<real>, log2: real -> real): (r: real)
    requires IsLog(log2)
    ensures r >= 0.0
    ensures |timings| == 0 ==> r == 0.0
  {
    if |timings| == 0 then 0.0
    else
      var lo := MinOf(timings);
      var range := Max(MaxOf(timings) - lo, 1e-10);
      var h := Histogram(timings, lo, range);
      HistogramCountsAll(timings, lo, range);
      forall b | 0 <= b < |h|
        ensures h[b] as real <= |timings| as real
      {
        NatSumBounds(h, b);
      }
      EntropyNonneg(h, HISTOGRAM_BINS, |timings| as real, log2);
      EntropyOf(h, HISTOGRAM_BINS, |timings| as real, log2)
  }

  /** The `while signature.len() < 128 { push(0.0) }` loop. */
  method PadWithZeros(raw: seq<real>) returns (signature: seq<real>)
    requires |raw| <= SIGNATURE_LEN
    ensures signature == PaddedSignature(raw)
  {
    signature := raw;
    while |signature| < SIGNATURE_LEN
      invariant |raw| <= |signature| <= SIGNATURE_LEN
      invariant signature == raw + Zeros(|signature| - |raw|)
      decreases SIGNATURE_LEN - |signature|
    {
      signature := signature + [0.0];
    }
  }

  /** The `for x in &mut signature { *x /= norm }` loop. */
  method DivideByNorm(padded: seq<real>, norm: real) returns (signature: seq<real>)
    requires norm > 0.0
    ensures signature == Scaled(padded, norm)
  {
    signature := padded;
    var i := 0;
    while i < |signature|
      invariant 0 <= i <= |signature| == |padded|
      invariant forall k :: 0 <= k < i ==> signature[k] == padded[k] / norm
      invariant forall k :: i <= k < |signature| ==> signature[k] == padded[k]
    {
      signature := signature[i := signature[i] / norm];
      i := i + 1;
    }
  }

  class SpectralEngine {
    const fft: seq<real> -> seq<real>
    const sqrt: real -> real
    const log2: real -> real

    ghost predicate Valid()
    {
      IsFftNorm(fft) && IsSqrt(sqrt) && IsLog(log2)
    }

    /** `new`: an engine around an FFT planner. */
    constructor (fft: seq<real> -> seq<real>, sqrt: real -> real, log2: real -> real)
      ensures this.fft == fft && this.sqrt == sqrt && this.log2 == log2
    {
      this.fft := fft;
      this.sqrt := sqrt;
      this.log2 := log2;
    }

    /** `compute_fingerprint` on a circuit. */
    function ComputeFingerprint(circuit: TorCircuitMetadata): (r: Spectrum)
      requires Valid()
      ensures r == Fingerprint(circuit.cellTimings, fft)
      ensures |r.frequencies| == |r.amplitudes| >= 1
    {
      Fingerprint(circuit.cellTimings, fft)
    }

    /** `extract_features` on a circuit whose age is `elapsed`. */
    function ExtractFeatures(circuit: TorCircuitMetadata, elapsed: real): (r: seq<real>)
      requires Valid()
      ensures r == Features(circuit.cellTimings, circuit.totalBytes, elapsed, sqrt)
      ensures |r| == FEATURE_COUNT
    {
      Features(circuit.cellTimings, circuit.totalBytes, elapsed, sqrt)
    }

    /**
     * `create_signature`: takes at most 120 amplitudes and the features,
     * pushes zeros up to 128 entries, then divides in place by the norm
     * when it is positive.
     */
    method CreateSignature(circuit: TorCircuitMetadata, elapsed: real) returns (signature: seq<real>)
      requires Valid()
      ensures signature == Signature(circuit, elapsed, fft, sqrt)
      ensures |signature| == SIGNATURE_LEN
    {
      var spectrum := ComputeFingerprint(circuit);
      var features := ExtractFeatures(circuit, elapsed);
      SignatureLayout(spectrum, features);
      var raw := RawSignature(spectrum, features);
      signature := PadWithZeros(raw);
      var norm := sqrt(SumSq(signature));
      if norm > 0.0 {
        signature := DivideByNorm(signature, norm);
      }
    }

    /**
     * `timing_entropy`: fills the 10-bin histogram over [min, min + range]
     * one timing at a time, then sums -p log2 p over the non-empty bins.
     */
    method TimingEntropy(circuit: TorCircuitMetadata) returns (entropy: real)
      requires Valid()
      ensures entropy == Entropy(circuit.cellTimings, log2)
      ensures entropy >= 0.0
    {
      var timings := circuit.cellTimings;
      if |timings| == 0 {
        return 0.0;
      }
      var minTime := MinOf(timings);
      var maxTime := MaxOf(timings);
      var range := Max(maxTime - minTime, 1e-10);
      var hist := FillHistogram(timings, minTime, range);
      entropy := EntropyOf(hist, HISTOGRAM_BINS, |timings| as real, log2);
    }
  }
}
