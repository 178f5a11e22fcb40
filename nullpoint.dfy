/**
 * The guard validator of Thronion (thronion/src/operators/nullpoint.rs):
 * three topological guards (Betti number, spectral gap, coherence
 * gradient), checked in a fixed order with every failure reported, and
 * the conditional reset through the nullpoint operator.  The sterile
 * projector and `NullpointOperator::apply` are not modelled: the reset
 * the operator performs is passed in as a function.
 */
module NullpointOperators {
  import opened Numerics
  import Omega5Operators

  /** The nullpoint operator, of which only the iteration count is modelled. */
  datatype NullpointOperator = NullpointOperator(numIterations: nat)

  /** `NullpointOperator::new`: the iteration count is stored as given. */
  function NewNullpoint(numIterations: nat): (op: NullpointOperator)
    ensures op.numIterations == numIterations
  {
    NullpointOperator(numIterations)
  }

  /** `Default`: ten iterations. */
  function DefaultNullpoint(): NullpointOperator
  {
    NewNullpoint(10)
  }

  datatype GuardValidator = GuardValidator(minBetti: real, minGap: real, maxGradient: real, nullpoint: NullpointOperator)

  /** `GuardValidator::new`: the fixed bounds 1.0, 0.1 and 0.01, and a nullpoint operator of ten iterations. */
  function NewValidator(): GuardValidator
  {
    GuardValidator(1.0, 0.1, 0.01, NewNullpoint(10))
  }

  /** What failed, with the measured value. */
  datatype GuardViolation =
    | BettiTooLow(betti: real)
    | SpectralGapTooSmall(gap: real)
    | CoherenceGradientTooLarge(gradient: real)

  datatype GuardStatus = Valid | Violated(violations: seq<GuardViolation>)

  /** The position of each kind of violation in the order the guards are checked. */
  function Rank(g: GuardViolation): nat
  {
    match g
    case BettiTooLow(_) => 0
    case SpectralGapTooSmall(_) => 1
    case CoherenceGradientTooLarge(_) => 2
  }

  /** The violations `validate` collects: one per failed guard, in checking order. */
  function Violations(v: GuardValidator, betti: real, gap: real, gradient: real): seq<GuardViolation>
  {
    (if betti < v.minBetti then [BettiTooLow(betti)] else [])
    + (if gap < v.minGap then [SpectralGapTooSmall(gap)] else [])
    + (if gradient > v.maxGradient then [CoherenceGradientTooLarge(gradient)] else [])
  }

  /** The status `validate` returns. */
  function Status(v: GuardValidator, betti: real, gap: real, gradient: real): GuardStatus
  {
    var vs := Violations(v, betti, gap, gradient);
    if |vs| == 0 then Valid else Violated(vs)
  }

  /** All three guards hold. */
  predicate GuardsHold(v: GuardValidator, betti: real, gap: real, gradient: real)
  {
    betti >= v.minBetti && gap >= v.minGap && gradient <= v.maxGradient
  }

  /**
   * `validate`: empty-handed exactly when all three guards hold; otherwise
   * a non-empty list with one entry per failed guard, each carrying the
   * measured value, in the order Betti, spectral gap, coherence gradient.
   */
  lemma StatusMeaning(v: GuardValidator, betti: real, gap: real, gradient: real)
    ensures Status(v, betti, gap, gradient) == Valid <==> GuardsHold(v, betti, gap, gradient)
    ensures Status(v, betti, gap, gradient).Violated? ==> |Status(v, betti, gap, gradient).violations| > 0
    ensures var vs := Violations(v, betti, gap, gradient);
            (BettiTooLow(betti) in vs <==> betti < v.minBetti)
            && (SpectralGapTooSmall(gap) in vs <==> gap < v.minGap)
            && (CoherenceGradientTooLarge(gradient) in vs <==> gradient > v.maxGradient)
    ensures var vs := Violations(v, betti, gap, gradient);
            |vs| == (if betti < v.minBetti then 1 else 0) + (if gap < v.minGap then 1 else 0)
                    + (if gradient > v.maxGradient then 1 else 0)
    ensures var vs := Violations(v, betti, gap, gradient);
            forall i, j | 0 <= i < j < |vs| :: Rank(vs[i]) < Rank(vs[j])
  {
    var vs := Violations(v, betti, gap, gradient);
    var b: seq<GuardViolation> := if betti < v.minBetti then [BettiTooLow(betti)] else [];
    var s: seq<GuardViolation> := if gap < v.minGap then [SpectralGapTooSmall(gap)] else [];
    var c: seq<GuardViolation> := if gradient > v.maxGradient then [CoherenceGradientTooLarge(gradient)] else [];
    assert vs == b + s + c;
    forall i, j | 0 <= i < j < |vs|
      ensures Rank(vs[i]) < Rank(vs[j])
    {
      assert i < |b| + |s| && j >= |b|;
    }
  }

  /**
   * `validate`, pushing onto a local list as the source does; its result
   * is `Status`, which `StatusMeaning` characterises.
   */
  method Validate(v: GuardValidator, betti: real, gap: real, gradient: real) returns (status: GuardStatus)
    ensures status == Status(v, betti, gap, gradient)
    ensures status == Valid <==> GuardsHold(v, betti, gap, gradient)
  {
    var violations: seq<GuardViolation> := [];
    if betti < v.minBetti {
      violations := violations + [BettiTooLow(betti)];
    }
    if gap < v.minGap {
      violations := violations + [SpectralGapTooSmall(gap)];
    }
    if gradient > v.maxGradient {
      violations := violations + [CoherenceGradientTooLarge(gradient)];
    }
    assert violations == Violations(v, betti, gap, gradient);
    if |violations| == 0 {
      status := Valid;
    } else {
      status := Violated(violations);
    }
    StatusMeaning(v, betti, gap, gradient);
  }

  /**
   * The validator's bounds are the default topological guards, so it
   * accepts exactly what `TopologicalGuards::check` accepts.
   */
  lemma ValidatorMatchesDefaultGuards(betti: real, gap: real, gradient: real)
    ensures Status(NewValidator(), betti, gap, gradient) == Valid
            <==> Omega5Operators.Check(Omega5Operators.DefaultGuards(), betti, gap, gradient)
    ensures NewValidator().nullpoint == DefaultNullpoint()
  {
    StatusMeaning(NewValidator(), betti, gap, gradient);
  }

  /** The source's cases: (2, 0.5, 0.005) passes; each guard broken alone is reported alone. */
  lemma ValidatorExamples()
    ensures Status(NewValidator(), 2.0, 0.5, 0.005) == Valid
    ensures Status(NewValidator(), 0.5, 0.5, 0.005) == Violated([BettiTooLow(0.5)])
    ensures Status(NewValidator(), 2.0, 0.05, 0.005) == Violated([SpectralGapTooSmall(0.05)])
    ensures Status(NewValidator(), 2.0, 0.5, 0.05) == Violated([CoherenceGradientTooLarge(0.05)])
  {
    assert Violations(NewValidator(), 0.5, 0.5, 0.005) == [BettiTooLow(0.5)];
    assert Violations(NewValidator(), 2.0, 0.05, 0.005) == [SpectralGapTooSmall(0.05)];
    assert Violations(NewValidator(), 2.0, 0.5, 0.05) == [CoherenceGradientTooLarge(0.05)];
  }

  /**
   * `conditional_reset`: the state unchanged and `false` when the guards
   * hold; otherwise the nullpoint operator's reset of the state and `true`.
   */
  method ConditionalReset(v: GuardValidator, state: QuantumState, betti: real, gap: real, gradient: real,
                          reset: QuantumState -> QuantumState)
    returns (newState: QuantumState, wasReset: bool)
    ensures wasReset <==> !GuardsHold(v, betti, gap, gradient)
    ensures !wasReset ==> newState == state
    ensures wasReset ==> newState == reset(state)
  {
    var status := Validate(v, betti, gap, gradient);
    match status
    case Valid =>
      newState, wasReset := state, false;
    case Violated(_) =>
      newState, wasReset := reset(state), true;
  }
}
