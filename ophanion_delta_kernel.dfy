/**
 * The Delta kernel of Ophanion (ophanion-main/src/delta_kernel.rs): the
 * learning parameters alpha, beta and theta, one clamped gradient step on
 * them, and the simplified gradient magnitude used as a convergence test.
 */
module OphanionDeltaKernel {
  import opened Numerics
  import opened OphanionConfig

  /** The three learning parameters (alpha, beta, theta). */
  datatype Params = Params(alpha: real, beta: real, theta: real)

  const ALPHA_MIN: real := 0.001
  const ALPHA_MAX: real := 0.1
  const BETA_MIN: real := 0.0001
  const BETA_MAX: real := 0.01
  const THETA_MIN: real := 0.1
  const THETA_MAX: real := 0.9

  /** The ranges `optimize_step` clamps into. */
  predicate InRange(p: Params)
  {
    ALPHA_MIN <= p.alpha <= ALPHA_MAX && BETA_MIN <= p.beta <= BETA_MAX && THETA_MIN <= p.theta <= THETA_MAX
  }

  /** The partial derivatives of the simplified model, in the order alpha, beta, theta. */
  function Partials(coherence: real, floodEnergy: real): Params
  {
    Params(-0.1 * coherence, 0.05 * floodEnergy, -0.15 * (coherence - floodEnergy))
  }

  /** The squared gradient norm. */
  function GradientNormSq(coherence: real, floodEnergy: real): (r: real)
    ensures r >= 0.0
  {
    var g := Partials(coherence, floodEnergy);
    Square(g.alpha) + Square(g.beta) + Square(g.theta)
  }

  /**
   * `gradient_magnitude`: the Euclidean norm of the partial derivatives.
   * It depends only on coherence and flood energy, never on the
   * parameters.
   */
  function GradientMagnitude(coherence: real, floodEnergy: real, sqrt: real -> real): (r: real)
    requires IsSqrt(sqrt)
    ensures r >= 0.0
  {
    sqrt(GradientNormSq(coherence, floodEnergy))
  }

  /** The gradient vanishes exactly when coherence and flood energy are both zero. */
  lemma GradientVanishesOnlyAtRest(coherence: real, floodEnergy: real, sqrt: real -> real)
    requires IsSqrt(sqrt)
    ensures GradientMagnitude(coherence, floodEnergy, sqrt) == 0.0 <==> coherence == 0.0 && floodEnergy == 0.0
  {
    var g := Partials(coherence, floodEnergy);
    assert GradientNormSq(coherence, floodEnergy) == Square(g.alpha) + Square(g.beta) + Square(g.theta);
  }

  /**
   * One gradient step alpha -= eta d_alpha (and likewise for beta and
   * theta), each clamped into its range afterwards.
   */
  function Step(p: Params, eta: real, coherence: real, floodEnergy: real): (r: Params)
    ensures InRange(r)
    ensures eta == 0.0 && InRange(p) ==> r == p
    ensures coherence == 0.0 && floodEnergy == 0.0 && InRange(p) ==> r == p
  {
    var g := Partials(coherence, floodEnergy);
    Params(Clamp(Descend(p.alpha, eta, g.alpha), ALPHA_MIN, ALPHA_MAX),
           Clamp(Descend(p.beta, eta, g.beta), BETA_MIN, BETA_MAX),
           Clamp(Descend(p.theta, eta, g.theta), THETA_MIN, THETA_MAX))
  }

  /** A parameter moved against its partial derivative by the rate eta. */
  function Descend(x: real, eta: real, partial: real): real
  {
    x - eta * partial
  }

  /** A step never moves a parameter by more than eta times its partial. */
  lemma StepMovesAtMostGradient(p: Params, eta: real, coherence: real, floodEnergy: real)
    requires InRange(p)
    ensures var r := Step(p, eta, coherence, floodEnergy);
            var g := Partials(coherence, floodEnergy);
            Abs(r.alpha - p.alpha) <= Abs(eta * g.alpha) && Abs(r.beta - p.beta) <= Abs(eta * g.beta)
            && Abs(r.theta - p.theta) <= Abs(eta * g.theta)
  {
    var g := Partials(coherence, floodEnergy);
    var r := Step(p, eta, coherence, floodEnergy);
    assert r == Params(Clamp(Descend(p.alpha, eta, g.alpha), ALPHA_MIN, ALPHA_MAX),
                       Clamp(Descend(p.beta, eta, g.beta), BETA_MIN, BETA_MAX),
                       Clamp(Descend(p.theta, eta, g.theta), THETA_MIN, THETA_MAX));
    ClampedDescentMovesAtMost(p.alpha, eta, g.alpha, ALPHA_MIN, ALPHA_MAX);
    ClampedDescentMovesAtMost(p.beta, eta, g.beta, BETA_MIN, BETA_MAX);
    ClampedDescentMovesAtMost(p.theta, eta, g.theta, THETA_MIN, THETA_MAX);
  }

  /** Clamping to a range that holds x never moves the descended value further from x. */
  lemma ClampedDescentMovesAtMost(x: real, eta: real, partial: real, lo: real, hi: real)
    requires lo <= x <= hi
    ensures Abs(Clamp(Descend(x, eta, partial), lo, hi) - x) <= Abs(eta * partial)
  {
  }

  class DeltaKernel {
    const config: OphanionSettings
    const sqrt: real -> real
    var alpha: real
    var beta: real
    var theta: real

    /** `new`: the parameters copied from the settings, not clamped. */
    constructor (config: OphanionSettings, sqrt: real -> real)
      ensures this.config == config && this.sqrt == sqrt
      ensures alpha == config.learningRateAlpha && beta == config.decayRateBeta && theta == config.initialThreshold
    {
      alpha := config.learningRateAlpha;
      beta := config.decayRateBeta;
      theta := config.initialThreshold;
      this.config := config;
      this.sqrt := sqrt;
    }

    /** `optimize_step`: one clamped gradient step with the configured eta. */
    method OptimizeStep(coherence: real, floodEnergy: real)
      modifies this
      ensures Params(alpha, beta, theta) == Step(old(Params(alpha, beta, theta)), config.optimizationEta, coherence, floodEnergy)
      ensures InRange(Params(alpha, beta, theta))
    {
      var eta := config.optimizationEta;
      var g := Partials(coherence, floodEnergy);
      alpha := Descend(alpha, eta, g.alpha);
      beta := Descend(beta, eta, g.beta);
      theta := Descend(theta, eta, g.theta);
      alpha := Clamp(alpha, ALPHA_MIN, ALPHA_MAX);
      beta := Clamp(beta, BETA_MIN, BETA_MAX);
      theta := Clamp(theta, THETA_MIN, THETA_MAX);
    }

    /** `get_params`: (alpha, beta, theta), in range once a step has been taken. */
    function GetParams(): (p: Params)
      reads this
      ensures p.alpha == alpha && p.beta == beta && p.theta == theta
    {
      Params(alpha, beta, theta)
    }

    /** `has_converged`: the gradient magnitude is below the configured epsilon. */
    predicate HasConverged(coherence: real, floodEnergy: real)
      requires IsSqrt(sqrt)
    {
      GradientMagnitude(coherence, floodEnergy, sqrt) < config.convergenceEpsilon
    }

    /** At coherence and flood energy 0 the gradient is 0, so any positive epsilon is met. */
    lemma ConvergenceAtRest(coherence: real, floodEnergy: real)
      requires IsSqrt(sqrt) && coherence == 0.0 && floodEnergy == 0.0 && config.convergenceEpsilon > 0.0
      ensures HasConverged(coherence, floodEnergy)
    {
      GradientVanishesOnlyAtRest(coherence, floodEnergy, sqrt);
    }

    /** The gradient magnitude is never negative, so a non-positive epsilon is never met. */
    lemma NoConvergenceWithoutTolerance(coherence: real, floodEnergy: real)
      requires IsSqrt(sqrt) && config.convergenceEpsilon <= 0.0
      ensures !HasConverged(coherence, floodEnergy)
    {
    }

  }
}
