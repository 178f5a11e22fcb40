/**
 * Dynamic tripolar logic (QRADIANCE-main/src/core/dtl.rs): a state is a
 * triple (psi, rho, omega) of coherence amplitude, population density and
 * angular frequency, classified as the null pole L0, the unit pole L1 or
 * the dynamic pole LD.  `sin`, `sqrt` and `log2` are oracles.
 */
module DynamicTripolarLogic {
  import opened Numerics

  /** The tolerance of `classify`. */
  const EPSILON: real := 0.0000000001

  datatype DTLState = DTLState(psi: real, rho: real, omega: real)

  datatype DTLClass = L0 | L1 | LD

  /** The documented ranges: psi and rho in [0, 1], omega unrestricted. */
  predicate WellFormed(s: DTLState)
  {
    0.0 <= s.psi <= 1.0 && 0.0 <= s.rho <= 1.0
  }

  /** `new`: panics unless psi and rho lie in [0, 1]; omega is taken as given. */
  function New(psi: real, rho: real, omega: real): (s: DTLState)
    requires 0.0 <= psi <= 1.0 && 0.0 <= rho <= 1.0
    ensures WellFormed(s)
    ensures s.psi == psi && s.rho == rho && s.omega == omega
  {
    DTLState(psi, rho, omega)
  }

  /** `l0`, also the `Default`. */
  function NullPole(): DTLState
  {
    DTLState(0.0, 0.0, 0.0)
  }

  /** `l1`. */
  function UnitPole(): DTLState
  {
    DTLState(1.0, 1.0, 0.0)
  }

  /**
   * `ld_oscillatory`: panics unless the amplitude lies in [0, 1) and the
   * frequency is not within 1e-10 of 0; psi is 0.5, rho the amplitude and
   * omega 2 pi freq.
   */
  function Oscillatory(freq: real, amp: real): (s: DTLState)
    requires 0.0 <= amp < 1.0 && Abs(freq) > EPSILON
    ensures WellFormed(s) && s.psi == 0.5 && s.rho == amp
    ensures Abs(s.omega) > EPSILON
  {
    var omega := 2.0 * PI * freq;
    assert Abs(omega) == 2.0 * PI * Abs(freq);
    DTLState(0.5, amp, omega)
  }

  /**
   * `classify`: L0 when rho and omega are both within 1e-10 of 0, L1 when
   * rho is within 1e-10 of 1 and omega within 1e-10 of 0, LD otherwise.
   * The two pole conditions exclude each other, so each class holds
   * exactly when its own condition does.
   */
  function Classify(s: DTLState): (c: DTLClass)
    ensures c == L0 <==> s.rho < EPSILON && Abs(s.omega) < EPSILON
    ensures c == L1 <==> Abs(s.rho - 1.0) < EPSILON && Abs(s.omega) < EPSILON
    ensures c == LD <==> !(s.rho < EPSILON && Abs(s.omega) < EPSILON) && !(Abs(s.rho - 1.0) < EPSILON && Abs(s.omega) < EPSILON)
  {
    if s.rho < EPSILON && Abs(s.omega) < EPSILON then L0
    else if Abs(s.rho - 1.0) < EPSILON && Abs(s.omega) < EPSILON then L1
    else LD
  }

  /** The constructors of the poles classify as their poles; every constructor is well-formed. */
  lemma ConstructorsClassify(freq: real, amp: real)
    requires 0.0 <= amp < 1.0 && Abs(freq) > EPSILON
    ensures Classify(NullPole()) == L0 && WellFormed(NullPole())
    ensures Classify(UnitPole()) == L1 && WellFormed(UnitPole())
    ensures Classify(Oscillatory(freq, amp)) == LD
  {
  }

  /** A state whose frequency is not within 1e-10 of 0 is dynamic, whatever its density. */
  lemma FrequencyMakesDynamic(s: DTLState)
    requires Abs(s.omega) >= EPSILON
    ensures Classify(s) == LD
  {
  }

  /** `information_capacity`: log2(3) bits per symbol. */
  function InformationCapacity(log2: real -> real): real
  {
    log2(3.0)
  }

  /**
   * `evolve`: poles are stationary; a dynamic state keeps psi and omega
   * and moves rho to rho (1 + sin(omega dt)), clamped into [0, 1].
   */
  function Evolve(s: DTLState, dt: real, sin: real -> real): (r: DTLState)
    ensures Classify(s) != LD ==> r == s
    ensures Classify(s) == LD ==> r.psi == s.psi && r.omega == s.omega && 0.0 <= r.rho <= 1.0
    ensures Classify(s) == LD ==> r.rho == Clamp(s.rho * (1.0 + sin(s.omega * dt)), 0.0, 1.0)
  {
    match Classify(s)
    case LD => DTLState(s.psi, Clamp(s.rho * (1.0 + sin(s.omega * dt)), 0.0, 1.0), s.omega)
    case _ => s
  }

  /**
   * Evolution keeps a state well-formed, keeps the poles where they are,
   * and keeps a dynamic state with a frequency of at least 1e-10 dynamic.
   */
  lemma EvolveKeepsClass(s: DTLState, dt: real, sin: real -> real)
    ensures WellFormed(s) ==> WellFormed(Evolve(s, dt, sin))
    ensures Classify(s) != LD ==> Classify(Evolve(s, dt, sin)) == Classify(s)
    ensures Classify(s) == LD && Abs(s.omega) >= EPSILON ==> Classify(Evolve(s, dt, sin)) == LD
  {
  }

  /** An oscillator stays dynamic under any number of steps of any length. */
  lemma {:induction false} OscillatorStaysDynamic(freq: real, amp: real, dts: seq<real>, sin: real -> real)
    requires 0.0 <= amp < 1.0 && Abs(freq) > EPSILON
    ensures var s := EvolveAll(Oscillatory(freq, amp), dts, sin);
            Classify(s) == LD && WellFormed(s) && s.omega == Oscillatory(freq, amp).omega
    decreases |dts|
  {
    if |dts| > 0 {
      OscillatorStaysDynamic(freq, amp, dts[..|dts| - 1], sin);
      var s := EvolveAll(Oscillatory(freq, amp), dts[..|dts| - 1], sin);
      EvolveKeepsClass(s, dts[|dts| - 1], sin);
    }
  }

  /** Successive `evolve` calls with the given steps. */
  function EvolveAll(s: DTLState, dts: seq<real>, sin: real -> real): DTLState
  {
    if |dts| == 0 then s else Evolve(EvolveAll(s, dts[..|dts| - 1], sin), dts[|dts| - 1], sin)
  }

  /** A square that is zero has a zero base. */
  lemma SquareZero(x: real)
    requires Square(x) == 0.0
    ensures x == 0.0
  {
  }

  /** The sum under the square root of `hamming_distance`. */
  function SquaredDistance(a: DTLState, b: DTLState): (d: real)
    ensures d >= 0.0
  {
    Square(a.psi - b.psi) + Square(a.rho - b.rho) + Square((a.omega - b.omega) / (2.0 * PI))
  }

  /**
   * `hamming_distance`: the Euclidean distance of the two triples, with
   * the frequencies measured in turns (divided by 2 pi).
   */
  function HammingDistance(a: DTLState, b: DTLState, sqrt: real -> real): (d: real)
    requires IsSqrt(sqrt)
    ensures d >= 0.0
    ensures d == 0.0 <==> SquaredDistance(a, b) == 0.0
    ensures a == b ==> d == 0.0
  {
    sqrt(SquaredDistance(a, b))
  }

  /** Swapping the arguments does not change a square of a difference. */
  lemma SquareOfDifferenceSymmetric(x: real, y: real)
    ensures Square(x - y) == Square(y - x)
  {
    assert (x - y) * (x - y) == (y - x) * (y - x);
  }

  /**
   * The distance is symmetric, and it is zero exactly on identical states:
   * even a difference in omega alone is seen.
   */
  lemma HammingDistanceIsMetricLike(a: DTLState, b: DTLState, sqrt: real -> real)
    requires IsSqrt(sqrt)
    ensures HammingDistance(a, b, sqrt) == HammingDistance(b, a, sqrt)
    ensures HammingDistance(a, b, sqrt) == 0.0 <==> a == b
  {
    SquareOfDifferenceSymmetric(a.psi, b.psi);
    SquareOfDifferenceSymmetric(a.rho, b.rho);
    assert (b.omega - a.omega) / (2.0 * PI) == -((a.omega - b.omega) / (2.0 * PI));
    SquareOfDifferenceSymmetric((a.omega - b.omega) / (2.0 * PI), 0.0);
    assert Square((a.omega - b.omega) / (2.0 * PI) - 0.0) == Square((a.omega - b.omega) / (2.0 * PI));
    assert Square(0.0 - (a.omega - b.omega) / (2.0 * PI)) == Square((b.omega - a.omega) / (2.0 * PI));
    if HammingDistance(a, b, sqrt) == 0.0 {
      SquareZero(a.psi - b.psi);
      SquareZero(a.rho - b.rho);
      SquareZero((a.omega - b.omega) / (2.0 * PI));
    }
  }
}
