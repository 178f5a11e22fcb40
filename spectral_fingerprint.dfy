/**
 * Spectral fingerprints of Thronion packets (thronion/src/resonance/spectrum.rs):
 * the bytes of a packet, scaled to [0, 1] and padded or cut to the FFT
 * size, go through an FFT whose squared magnitudes are normalised into a
 * power distribution; from it come the five strongest frequencies, the
 * Shannon entropy, the kurtosis, the cosine similarity of two fingerprints
 * and a three-way traffic classification.  The FFT followed by `norm_sqr`
 * is an oracle; `ln` and `sqrt` are the oracles of the numeric module.
 */
module SpectralFingerprints {
  import opened Numerics
  import IndexSort

  /** How many dominant frequencies a fingerprint keeps (`take(5)`). */
  const TOP_FREQUENCIES: nat := 5

  /** Total power, norms and variances below 1e-10 count as silent. */
  const SILENCE: real := 0.0000000001

  /** Spectral entries at or below 1e-15 are left out of the entropy. */
  const NEGLIGIBLE: real := 0.000000000000001

  datatype SpectralFingerprint = SpectralFingerprint(
    powerSpectrum: seq<real>,
    dominantFrequencies: seq<nat>,
    spectralEntropy: real)

  datatype TrafficType = Legitimate | Bot | Suspicious

  /**
   * The forward FFT followed by `norm_sqr`: one non-negative power per
   * sample, and no power at all for a silent signal (the transform is linear).
   */
  ghost predicate IsPowerFft(f: seq<real> -> seq<real>)
  {
    forall x :: |f(x)| == |x|
      && (forall k :: 0 <= k < |x| ==> f(x)[k] >= 0.0)
      && ((forall k :: 0 <= k < |x| ==> x[k] == 0.0) ==> forall k :: 0 <= k < |x| ==> f(x)[k] == 0.0)
  }

  /**
   * The FFT input: each byte divided by 255, then `resize(fft_size, 0.0)`,
   * which cuts a longer packet and pads a shorter one with zeros.
   */
  function Signal(data: seq<bv8>, fftSize: nat): (s: seq<real>)
    ensures |s| == fftSize
    ensures forall k :: 0 <= k < fftSize ==> 0.0 <= s[k] <= 1.0
    ensures forall k :: 0 <= k < fftSize && k < |data| ==> s[k] * 255.0 == data[k] as int as real
    ensures forall k :: |data| <= k < fftSize ==> s[k] == 0.0
  {
    seq(fftSize, k requires 0 <= k < fftSize => if k < |data| then data[k] as int as real / 255.0 else 0.0)
  }

  /**
   * The normalisation of `compute`: each power divided by the total when the
   * total exceeds 1e-10, otherwise the uniform spectrum 1/fft_size.
   */
  function Normalize(power: seq<real>): (r: seq<real>)
    requires |power| > 0
    ensures |r| == |power|
    ensures Sum(power) > SILENCE ==> forall k :: 0 <= k < |power| ==> r[k] * Sum(power) == power[k]
    ensures Sum(power) <= SILENCE ==> forall k :: 0 <= k < |power| ==> r[k] == 1.0 / |power| as real
  {
    var total := Sum(power);
    if total > SILENCE then seq(|power|, k requires 0 <= k < |power| => power[k] / total)
    else seq(|power|, k requires 0 <= k < |power| => 1.0 / |power| as real)
  }

  /** A sum of non-negative entries is non-negative. */
  lemma {:induction false} SumNonneg(s: seq<real>)
    requires forall k :: 0 <= k < |s| ==> s[k] >= 0.0
    ensures Sum(s) >= 0.0
    decreases |s|
  {
    if |s| > 0 {
      SumNonneg(s[..|s| - 1]);
    }
  }

  /** A non-negative entry is at most the sum of non-negative entries. */
  lemma {:induction false} EntryAtMostSum(s: seq<real>, i: nat)
    requires i < |s| && forall k :: 0 <= k < |s| ==> s[k] >= 0.0
    ensures s[i] <= Sum(s)
    decreases |s|
  {
    var pre := s[..|s| - 1];
    if i == |s| - 1 {
      SumNonneg(pre);
    } else {
      EntryAtMostSum(pre, i);
    }
  }

  /**
   * Non-negative powers normalise to a probability distribution: every
   * entry lies in [0, 1] and the entries sum to 1, in both branches.
   */
  lemma NormalizedIsDistribution(power: seq<real>)
    requires |power| > 0 && forall k :: 0 <= k < |power| ==> power[k] >= 0.0
    ensures forall k :: 0 <= k < |power| ==> 0.0 <= Normalize(power)[k] <= 1.0
    ensures Sum(Normalize(power)) == 1.0
  {
    if Sum(power) > SILENCE {
      ProportionalIsDistribution(power, Normalize(power), Sum(power));
    } else {
      UniformSumsToOne(Normalize(power));
    }
  }

  /** Entries proportional to non-negative powers, scaled by their positive total. */
  lemma ProportionalIsDistribution(power: seq<real>, r: seq<real>, total: real)
    requires total == Sum(power) && total > 0.0
    requires forall k :: 0 <= k < |power| ==> power[k] >= 0.0
    requires |r| == |power| && forall k :: 0 <= k < |power| ==> r[k] * total == power[k]
    ensures forall k :: 0 <= k < |power| ==> 0.0 <= r[k] <= 1.0
    ensures Sum(r) == 1.0
  {
    ProportionalEntries(power, r, total);
    SumScaled(power, r, 1.0 / total);
    TimesReciprocal(total);
  }

  lemma ProportionalEntries(power: seq<real>, r: seq<real>, total: real)
    requires total == Sum(power) && total > 0.0
    requires forall k :: 0 <= k < |power| ==> power[k] >= 0.0
    requires |r| == |power| && forall k :: 0 <= k < |power| ==> r[k] * total == power[k]
    ensures forall k :: 0 <= k < |power| ==> 0.0 <= r[k] <= 1.0
    ensures forall k :: 0 <= k < |power| ==> r[k] == power[k] * (1.0 / total)
  {
    forall k | 0 <= k < |power|
      ensures 0.0 <= r[k] <= 1.0 && r[k] == power[k] * (1.0 / total)
    {
      EntryAtMostSum(power, k);
      UnitFraction(power[k], r[k], total);
    }
  }

  lemma TimesReciprocal(t: real)
    requires t > 0.0
    ensures t * (1.0 / t) == 1.0
  {
  }

  /** `x` with `x * t == a` for `0 <= a <= t` is the fraction `a / t`, in [0, 1]. */
  lemma UnitFraction(a: real, x: real, t: real)
    requires 0.0 <= a <= t && t > 0.0 && x * t == a
    ensures 0.0 <= x <= 1.0 && x == a * (1.0 / t)
  {
    FractionInUnit(a, t);
    assert x == a / t;
  }

  /** |s| copies of 1/|s| lie in [0, 1] and sum to 1. */
  lemma UniformSumsToOne(s: seq<real>)
    requires |s| > 0 && forall k :: 0 <= k < |s| ==> s[k] == 1.0 / |s| as real
    ensures forall k :: 0 <= k < |s| ==> 0.0 <= s[k] <= 1.0
    ensures Sum(s) == 1.0
  {
    var n := |s| as real;
    FractionInUnit(1.0, n);
    SumBounds(s, 1.0 / n, 1.0 / n);
    assert (1.0 / n) * n == 1.0;
  }

  /** `i` comes before `j` after sorting by descending power: more power, or equal power and a smaller index. */
  predicate Stronger(spectrum: seq<real>, i: nat, j: nat)
    requires i < |spectrum| && j < |spectrum|
  {
    spectrum[i] > spectrum[j] || (spectrum[i] == spectrum[j] && i < j)
  }

  function Negated(s: seq<real>): (r: seq<real>)
    ensures |r| == |s| && forall k :: 0 <= k < |s| ==> r[k] == -s[k]
  {
    seq(|s|, k requires 0 <= k < |s| => -s[k])
  }

  /** Descending power is ascending negated power; the stable sort keeps index order on ties. */
  function DescendingOrder(spectrum: seq<real>): (r: seq<nat>)
    ensures |r| == |spectrum|
    ensures forall y: nat :: y in r <==> y < |spectrum|
    ensures IndexSort.Ordered(Negated(spectrum), r)
  {
    IndexSort.SortIndices(Negated(spectrum), |spectrum|)
  }

  /** `min(5, len)`. */
  function TopCount(n: nat): (k: nat)
    ensures k <= n && k <= TOP_FREQUENCIES
    ensures k == n || k == TOP_FREQUENCIES
  {
    if n < TOP_FREQUENCIES then n else TOP_FREQUENCIES
  }

  /** The indices of the first five entries after the descending sort. */
  function Dominant(spectrum: seq<real>): (r: seq<nat>)
    ensures |r| == TopCount(|spectrum|)
  {
    DescendingOrder(spectrum)[..TopCount(|spectrum|)]
  }

  /**
   * The dominant frequencies are distinct indices of the spectrum in
   * descending power (ties by index), and no index left out has more power
   * than any index kept; on equal power the kept index is the lower one.
   */
  lemma DominantAreStrongest(spectrum: seq<real>)
    ensures forall a :: 0 <= a < |Dominant(spectrum)| ==> Dominant(spectrum)[a] < |spectrum|
    ensures forall a, b :: 0 <= a < b < |Dominant(spectrum)| ==> Stronger(spectrum, Dominant(spectrum)[a], Dominant(spectrum)[b])
    ensures forall a, y :: 0 <= a < |Dominant(spectrum)| && 0 <= y < |spectrum| && y !in Dominant(spectrum) ==>
              spectrum[y] <= spectrum[Dominant(spectrum)[a]]
    ensures forall a, y :: 0 <= a < |Dominant(spectrum)| && 0 <= y < |spectrum| && y !in Dominant(spectrum) ==>
              Stronger(spectrum, Dominant(spectrum)[a], y)
  {
    var order := DescendingOrder(spectrum);
    var k := TopCount(|spectrum|);
    var r := Dominant(spectrum);
    assert forall a :: 0 <= a < k ==> r[a] == order[a];
    forall a, y | 0 <= a < k && 0 <= y < |spectrum| && y !in r
      ensures spectrum[y] <= spectrum[r[a]]
      ensures Stronger(spectrum, r[a], y)
    {
      IndexSort.PrefixHoldsSmallest(Negated(spectrum), |spectrum|, k, a, y);
    }
  }

  /** A strictly increasing sequence grows by at least one per position. */
  lemma {:induction false} GapGrows(r: seq<nat>, a: nat, b: nat)
    requires a <= b < |r|
    requires forall i, j :: 0 <= i < j < |r| ==> r[i] < r[j]
    ensures r[a] + (b - a) <= r[b]
    decreases b - a
  {
    if a < b {
      GapGrows(r, a, b - 1);
    }
  }

  /** With no power difference the descending sort keeps index order, so the first indices are dominant. */
  lemma EqualPowersKeepIndexOrder(spectrum: seq<real>)
    requires forall k :: 0 <= k < |spectrum| ==> spectrum[k] == spectrum[0]
    ensures forall a :: 0 <= a < |Dominant(spectrum)| ==> Dominant(spectrum)[a] == a
  {
    var order := DescendingOrder(spectrum);
    var n := |spectrum|;
    assert forall i, j :: 0 <= i < j < n ==> order[i] < order[j] by {
      forall i, j | 0 <= i < j < n
        ensures order[i] < order[j]
      {
        assert IndexSort.Before(Negated(spectrum), order[i], order[j]);
      }
    }
    forall a | 0 <= a < n
      ensures order[a] == a
    {
      GapGrows(order, 0, a);
      GapGrows(order, a, n - 1);
      assert order[n - 1] in order;
    }
    assert forall a :: 0 <= a < |Dominant(spectrum)| ==> Dominant(spectrum)[a] == order[a];
  }

  /** `filter(|&&p| p > 1e-15)`: the entries above the cut-off, in order. */
  function Significant(s: seq<real>): (r: seq<real>)
    ensures |r| <= |s|
    ensures forall k :: 0 <= k < |r| ==> r[k] > NEGLIGIBLE
    ensures (forall k :: 0 <= k < |s| ==> s[k] <= 1.0) ==> forall k :: 0 <= k < |r| ==> r[k] <= 1.0
  {
    if |s| == 0 then []
    else
      var rest := Significant(s[..|s| - 1]);
      if s[|s| - 1] > NEGLIGIBLE then rest + [s[|s| - 1]] else rest
  }

  /** The terms p * ln(p). */
  function PLogP(s: seq<real>, ln: real -> real): (r: seq<real>)
    ensures |r| == |s| && forall k :: 0 <= k < |s| ==> r[k] == s[k] * ln(s[k])
  {
    seq(|s|, k requires 0 <= k < |s| => s[k] * ln(s[k]))
  }

  /** `compute_entropy`: -sum of p * ln(p) over the entries above 1e-15. */
  function Entropy(spectrum: seq<real>, ln: real -> real): real
  {
    -Sum(PLogP(Significant(spectrum), ln))
  }

  /** On entries in [0, 1] every counted term p * ln(p) is non-positive, so the entropy is non-negative. */
  lemma EntropyNonneg(spectrum: seq<real>, ln: real -> real)
    requires IsLog(ln) && forall k :: 0 <= k < |spectrum| ==> 0.0 <= spectrum[k] <= 1.0
    ensures Entropy(spectrum, ln) >= 0.0
  {
    var sig := Significant(spectrum);
    TermsNonpositive(sig, ln);
    SumNonpositive(PLogP(sig, ln));
  }

  /** Each p * ln(p) with p in (0, 1] is at most zero. */
  lemma TermsNonpositive(sig: seq<real>, ln: real -> real)
    requires IsLog(ln) && forall k :: 0 <= k < |sig| ==> NEGLIGIBLE < sig[k] <= 1.0
    ensures forall k :: 0 <= k < |sig| ==> PLogP(sig, ln)[k] <= 0.0
  {
    forall k | 0 <= k < |sig|
      ensures PLogP(sig, ln)[k] <= 0.0
    {
      MulNonneg(sig[k], -ln(sig[k]));
    }
  }

  /** A sum of entries at most zero is at most zero. */
  lemma SumNonpositive(terms: seq<real>)
    requires forall k :: 0 <= k < |terms| ==> terms[k] <= 0.0
    ensures Sum(terms) <= 0.0
  {
    var neg := Negated(terms);
    SumNonneg(neg);
    SumScaled(terms, neg, -1.0);
  }

  /**
   * Appending an entry at or below 1e-15 leaves the entropy unchanged; one
   * above it subtracts its own p * ln(p).
   */
  lemma EntropyAppend(spectrum: seq<real>, x: real, ln: real -> real)
    ensures x <= NEGLIGIBLE ==> Entropy(spectrum + [x], ln) == Entropy(spectrum, ln)
    ensures x > NEGLIGIBLE ==> Entropy(spectrum + [x], ln) == Entropy(spectrum, ln) - x * ln(x)
  {
    var s := spectrum + [x];
    assert s[..|s| - 1] == spectrum;
    var sig := Significant(spectrum);
    if x > NEGLIGIBLE {
      PLogPAppend(sig, x, ln);
      SumAppend(PLogP(sig, ln), x * ln(x));
    }
  }

  lemma PLogPAppend(s: seq<real>, x: real, ln: real -> real)
    ensures PLogP(s + [x], ln) == PLogP(s, ln) + [x * ln(x)]
  {
    var t := s + [x];
    forall k | 0 <= k < |t|
      ensures PLogP(t, ln)[k] == (PLogP(s, ln) + [x * ln(x)])[k]
    {
      if k < |s| {
        assert t[k] == s[k];
      } else {
        assert t[k] == x;
      }
    }
  }

  /** The entropy sees only the one entry above the cut-off of a single-peak spectrum. */
  lemma {:induction false} SignificantOfPeak(s: seq<real>, j: nat)
    requires j < |s| ==> s[j] == 1.0
    requires forall k :: 0 <= k < |s| && k != j ==> s[k] <= NEGLIGIBLE
    ensures Significant(s) == if j < |s| then [1.0] else []
    decreases |s|
  {
    if |s| > 0 {
      SignificantOfPeak(s[..|s| - 1], j);
    }
  }

  lemma PLogPOfOne(ln: real -> real)
    requires IsLog(ln)
    ensures Sum(PLogP([1.0], ln)) == 0.0
  {
    var terms := PLogP([1.0], ln);
    assert terms == [0.0];
    assert [0.0][..0] == [];
  }

  /** All power in one bin (the others at most 1e-15): zero entropy. */
  lemma PeakedSpectrumHasZeroEntropy(spectrum: seq<real>, j: nat, ln: real -> real)
    requires IsLog(ln) && j < |spectrum| && spectrum[j] == 1.0
    requires forall k :: 0 <= k < |spectrum| && k != j ==> spectrum[k] <= NEGLIGIBLE
    ensures Entropy(spectrum, ln) == 0.0
  {
    SignificantOfPeak(spectrum, j);
    PLogPOfOne(ln);
  }

  /**
   * `compute`: the fingerprint of a packet.  The FFT size must be a power
   * of two; the power spectrum has exactly that many entries and is a
   * probability distribution, the dominant frequencies are the first
   * min(5, fft_size) indices in descending power, and the entropy is non-negative.
   */
  function Compute(data: seq<bv8>, fftSize: nat, fft: seq<real> -> seq<real>, ln: real -> real): (fp: SpectralFingerprint)
    requires IsPowerOfTwo(fftSize) && IsPowerFft(fft) && IsLog(ln)
    ensures |fp.powerSpectrum| == fftSize
    ensures fp.powerSpectrum == Normalize(fft(Signal(data, fftSize)))
    ensures forall k :: 0 <= k < fftSize ==> 0.0 <= fp.powerSpectrum[k] <= 1.0
    ensures Sum(fp.powerSpectrum) == 1.0
    ensures fp.dominantFrequencies == Dominant(fp.powerSpectrum)
    ensures |fp.dominantFrequencies| == TopCount(fftSize) && |fp.dominantFrequencies| > 0
    ensures fp.spectralEntropy == Entropy(fp.powerSpectrum, ln) && fp.spectralEntropy >= 0.0
  {
    var power := fft(Signal(data, fftSize));
    NormalizedIsDistribution(power);
    var spectrum := Normalize(power);
    EntropyNonneg(spectrum, ln);
    SpectralFingerprint(spectrum, Dominant(spectrum), Entropy(spectrum, ln))
  }

  /** The element-wise products that `zip(...).map(|(a, b)| a * b)` yields. */
  function Products(a: seq<real>, b: seq<real>): (r: seq<real>)
    requires |a| == |b|
    ensures |r| == |a| && forall k :: 0 <= k < |a| ==> r[k] == a[k] * b[k]
  {
    seq(|a|, k requires 0 <= k < |a| => a[k] * b[k])
  }

  lemma ProductsPrefix(a: seq<real>, b: seq<real>)
    requires |a| == |b| && |a| > 0
    ensures Products(a, b)[..|a| - 1] == Products(a[..|a| - 1], b[..|b| - 1])
  {
    var n := |a| - 1;
    forall k | 0 <= k < n
      ensures Products(a, b)[..n][k] == Products(a[..n], b[..n])[k]
    {
      assert a[..n][k] == a[k] && b[..n][k] == b[k];
    }
  }

  /** The products of a vector with itself sum to its sum of squares. */
  lemma {:induction false} ProductsWithSelf(a: seq<real>)
    ensures Sum(Products(a, a)) == SumSq(a)
    decreases |a|
  {
    if |a| > 0 {
      var pre := a[..|a| - 1];
      ProductsPrefix(a, a);
      ProductsWithSelf(pre);
    }
  }

  /**
   * `similarity`: the cosine of the two power spectra, which must have the
   * same length; 0 when either norm is below 1e-10.
   */
  function Similarity(a: SpectralFingerprint, b: SpectralFingerprint, sqrt: real -> real): (r: real)
    requires |a.powerSpectrum| == |b.powerSpectrum| && IsSqrt(sqrt)
    ensures Norm(a.powerSpectrum, sqrt) < SILENCE || Norm(b.powerSpectrum, sqrt) < SILENCE ==> r == 0.0
    ensures (forall k :: 0 <= k < |a.powerSpectrum| ==> a.powerSpectrum[k] == 0.0) ==> r == 0.0
  {
    var dot := Sum(Products(a.powerSpectrum, b.powerSpectrum));
    var normSelf := Norm(a.powerSpectrum, sqrt);
    var normOther := Norm(b.powerSpectrum, sqrt);
    if normSelf < SILENCE || normOther < SILENCE then 0.0
    else
      MulPos(normSelf, normOther);
      dot / (normSelf * normOther)
  }

  /** The similarity does not depend on the order of its arguments. */
  lemma SimilaritySymmetric(a: SpectralFingerprint, b: SpectralFingerprint, sqrt: real -> real)
    requires |a.powerSpectrum| == |b.powerSpectrum| && IsSqrt(sqrt)
    ensures Similarity(a, b, sqrt) == Similarity(b, a, sqrt)
  {
    assert Products(a.powerSpectrum, b.powerSpectrum) == Products(b.powerSpectrum, a.powerSpectrum);
  }

  /** Spectra of non-negative powers are never negatively similar. */
  lemma SimilarityNonneg(a: SpectralFingerprint, b: SpectralFingerprint, sqrt: real -> real)
    requires |a.powerSpectrum| == |b.powerSpectrum| && IsSqrt(sqrt)
    requires forall k :: 0 <= k < |a.powerSpectrum| ==> a.powerSpectrum[k] >= 0.0 && b.powerSpectrum[k] >= 0.0
    ensures Similarity(a, b, sqrt) >= 0.0
  {
    var p := Products(a.powerSpectrum, b.powerSpectrum);
    forall k | 0 <= k < |p|
      ensures p[k] >= 0.0
    {
      MulNonneg(a.powerSpectrum[k], b.powerSpectrum[k]);
    }
    SumNonneg(p);
    var na := Norm(a.powerSpectrum, sqrt);
    var nb := Norm(b.powerSpectrum, sqrt);
    if na >= SILENCE && nb >= SILENCE {
      MulPos(na, nb);
      var q := Sum(p) / (na * nb);
      assert q * (na * nb) == Sum(p);
      if q < 0.0 {
        MulPos(-q, na * nb);
      }
    }
  }

  /** With the real square root, a fingerprint that is not silent is fully similar to itself. */
  lemma SelfSimilarityIsOne(a: SpectralFingerprint, sqrt: real -> real)
    requires IsSqrt(sqrt) && SquaresBack(sqrt) && Norm(a.powerSpectrum, sqrt) >= SILENCE
    ensures Similarity(a, a, sqrt) == 1.0
  {
    ProductsWithSelf(a.powerSpectrum);
    var n := Norm(a.powerSpectrum, sqrt);
    var dot := Sum(Products(a.powerSpectrum, a.powerSpectrum));
    assert n * n == dot;
    ProductPos(n, n);
    assert Product(n, n) == n * n;
    assert Similarity(a, a, sqrt) == dot / (n * n);
  }

  /** `is_flat`: the entropy exceeds the threshold. */
  predicate IsFlat(fp: SpectralFingerprint, threshold: real)
  {
    fp.spectralEntropy > threshold
  }

  /**
   * The Bot test of `classify_traffic` is `is_flat` at the threshold
   * 0.9 ln n; flatness at a threshold carries over to every lower one.
   */
  lemma BotIsFlat(fp: SpectralFingerprint, ln: real -> real, threshold: real, lower: real)
    requires |fp.powerSpectrum| > 0
    requires fp.spectralEntropy <= 0.9 * ln(|fp.powerSpectrum| as real) ==> |fp.dominantFrequencies| > 0
    ensures ClassifyTraffic(fp, ln) == Bot <==> IsFlat(fp, 0.9 * ln(|fp.powerSpectrum| as real))
    ensures IsFlat(fp, threshold) && lower <= threshold ==> IsFlat(fp, lower)
  {
  }

  /** `powi(4)`: the square of the square. */
  function FourthPower(x: real): (r: real)
    ensures r >= 0.0
  {
    Square(Square(x))
  }

  function Mean(s: seq<real>): real
    requires |s| > 0
  {
    Sum(s) / |s| as real
  }

  function Deviations2(s: seq<real>, m: real): (d: seq<real>)
    ensures |d| == |s| && forall k :: 0 <= k < |s| ==> d[k] == Square(s[k] - m) && d[k] >= 0.0
  {
    seq(|s|, k requires 0 <= k < |s| => Square(s[k] - m))
  }

  function Deviations4(s: seq<real>, m: real): (d: seq<real>)
    ensures |d| == |s| && forall k :: 0 <= k < |s| ==> d[k] == FourthPower(s[k] - m) && d[k] >= 0.0
  {
    seq(|s|, k requires 0 <= k < |s| => FourthPower(s[k] - m))
  }

  /** The mean of the squared deviations from the mean. */
  function Variance(s: seq<real>): (v: real)
    requires |s| > 0
    ensures v >= 0.0
  {
    var d := Deviations2(s, Mean(s));
    SumNonneg(d);
    Sum(d) / |s| as real
  }

  /** The mean of the fourth powers of the deviations from the mean. */
  function FourthMoment(s: seq<real>): (f: real)
    requires |s| > 0
    ensures f >= 0.0
  {
    var d := Deviations4(s, Mean(s));
    SumNonneg(d);
    Sum(d) / |s| as real
  }

  /**
   * `spectral_kurtosis`: the excess kurtosis, 0 for a spectrum whose
   * variance is below 1e-10, and never below -3.
   */
  function SpectralKurtosis(s: seq<real>): (r: real)
    requires |s| > 0
    ensures Variance(s) < SILENCE ==> r == 0.0
    ensures r >= -3.0
  {
    var variance := Variance(s);
    if variance < SILENCE then 0.0
    else
      var v2 := Square(variance);
      var q := FourthMoment(s) / v2;
      assert q * v2 == FourthMoment(s);
      assert q >= 0.0 by {
        if q < 0.0 {
          MulPos(-q, v2);
        }
      }
      q - 3.0
  }

  /** A spectrum whose entries are all equal has no variance and so zero kurtosis. */
  lemma ConstantSpectrumHasZeroKurtosis(s: seq<real>)
    requires |s| > 0 && forall k :: 0 <= k < |s| ==> s[k] == s[0]
    ensures Variance(s) == 0.0 && SpectralKurtosis(s) == 0.0
  {
    var n := |s| as real;
    SumBounds(s, s[0], s[0]);
    assert Mean(s) == s[0];
    var d := Deviations2(s, Mean(s));
    SumBounds(d, 0.0, 0.0);
  }

  /**
   * `classify_traffic`, checked in order: Bot when the entropy exceeds
   * 0.9 ln(len); else Legitimate when the strongest frequency is below 10;
   * else Suspicious when |kurtosis| > 2; else Legitimate.  The first
   * dominant frequency is read only past the first check.
   */
  function ClassifyTraffic(fp: SpectralFingerprint, ln: real -> real): (t: TrafficType)
    requires |fp.powerSpectrum| > 0
    requires fp.spectralEntropy <= 0.9 * ln(|fp.powerSpectrum| as real) ==> |fp.dominantFrequencies| > 0
    ensures t == Bot <==> fp.spectralEntropy > 0.9 * ln(|fp.powerSpectrum| as real)
    ensures t == Suspicious <==>
              fp.spectralEntropy <= 0.9 * ln(|fp.powerSpectrum| as real)
              && fp.dominantFrequencies[0] >= 10 && Abs(SpectralKurtosis(fp.powerSpectrum)) > 2.0
  {
    if fp.spectralEntropy > 0.9 * ln(|fp.powerSpectrum| as real) then Bot
    else if fp.dominantFrequencies[0] < 10 then Legitimate
    else if Abs(SpectralKurtosis(fp.powerSpectrum)) > 2.0 then Suspicious
    else Legitimate
  }

  /**
   * A silent packet (here the empty one) has no power, so `compute` falls
   * back to the uniform spectrum 1/fft_size.
   */
  lemma SilentPacketIsUniform(fftSize: nat, fft: seq<real> -> seq<real>, ln: real -> real)
    requires IsPowerOfTwo(fftSize) && IsPowerFft(fft) && IsLog(ln)
    ensures forall k :: 0 <= k < fftSize ==> Compute([], fftSize, fft, ln).powerSpectrum[k] == 1.0 / fftSize as real
  {
    var signal := Signal([], fftSize);
    assert forall k :: 0 <= k < |signal| ==> signal[k] == 0.0;
    SilenceNormalizesUniformly(fft(signal));
  }

  /** No power at all normalises to the uniform spectrum. */
  lemma SilenceNormalizesUniformly(power: seq<real>)
    requires |power| > 0 && forall k :: 0 <= k < |power| ==> power[k] == 0.0
    ensures forall k :: 0 <= k < |power| ==> Normalize(power)[k] == 1.0 / |power| as real
  {
    SumBounds(power, 0.0, 0.0);
  }

  /**
   * A fingerprint with equal power in every bin keeps the lowest indices
   * as dominant frequencies and has zero kurtosis, so it is never
   * classified as suspicious.
   */
  lemma FlatFingerprintIsNeverSuspicious(fp: SpectralFingerprint, ln: real -> real)
    requires |fp.powerSpectrum| > 0 && forall k :: 0 <= k < |fp.powerSpectrum| ==> fp.powerSpectrum[k] == fp.powerSpectrum[0]
    requires fp.dominantFrequencies == Dominant(fp.powerSpectrum)
    ensures forall a :: 0 <= a < |fp.dominantFrequencies| ==> fp.dominantFrequencies[a] == a
    ensures SpectralKurtosis(fp.powerSpectrum) == 0.0
    ensures ClassifyTraffic(fp, ln) != Suspicious
  {
    EqualPowersKeepIndexOrder(fp.powerSpectrum);
    ConstantSpectrumHasZeroKurtosis(fp.powerSpectrum);
  }

  /**
   * A silent packet (here the empty one) has the uniform spectrum
   * 1/fft_size, its dominant frequencies are the lowest indices, its
   * kurtosis is 0, and so it is never classified as suspicious.
   */
  lemma SilentPacketIsNeverSuspicious(fftSize: nat, fft: seq<real> -> seq<real>, ln: real -> real)
    requires IsPowerOfTwo(fftSize) && IsPowerFft(fft) && IsLog(ln)
    ensures var fp := Compute([], fftSize, fft, ln);
            && (forall k :: 0 <= k < fftSize ==> fp.powerSpectrum[k] == 1.0 / fftSize as real)
            && (forall a :: 0 <= a < |fp.dominantFrequencies| ==> fp.dominantFrequencies[a] == a)
            && SpectralKurtosis(fp.powerSpectrum) == 0.0
            && ClassifyTraffic(fp, ln) != Suspicious
  {
    var fp := Compute([], fftSize, fft, ln);
    SilentPacketIsUniform(fftSize, fft, ln);
    assert forall k :: 0 <= k < |fp.powerSpectrum| ==> fp.powerSpectrum[k] == fp.powerSpectrum[0];
    FlatFingerprintIsNeverSuspicious(fp, ln);
  }
}
