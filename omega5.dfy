/**
 * The 5D operator family of Thronion (thronion/src/operators/omega5.rs):
 * the state (psi, rho, omega, theta, phi) on the information manifold,
 * whose two torus phases are kept in [0, 2 pi); the quaternion rotation
 * on pairs of tripolar coordinates; the uniform scaling operator; the
 * wormhole transfer along an edge of the Metatron graph; and the
 * topological guards.  `sqrt`, `sin`, `cos`, `exp` and the normalisation
 * of `QuantumState::new` are oracles.
 */
module Omega5Operators {
  import opened Numerics
  import Metatron

  /** The period of both torus phases, `2.0 * PI`. */
  const TWO_PI: real := 2.0 * PI

  /** `x` and `y` differ by a whole number of periods `m`: they name the same angle. */
  predicate SameAngle(x: real, y: real, m: real)
    requires m > 0.0
  {
    ((x - y) / m).Floor as real == (x - y) / m
  }

  /** The multiple floor(x / m) m lies within m below x. */
  lemma FloorMultipleBelow(x: real, m: real)
    requires m > 0.0
    ensures var km := (x / m).Floor as real * m; km <= x < km + m
  {
    var q := x / m;
    var k := q.Floor as real;
    assert q * m == x;
    MulNonneg(q - k, m);
    MulPos(k + 1.0 - q, m);
    assert (q - k) * m == x - k * m;
    assert (k + 1.0 - q) * m == k * m + m - x;
  }

  /** A quotient by m > 0 of a value in [0, m) lies in [0, 1). */
  lemma QuotientInUnit(x: real, m: real)
    requires m > 0.0 && 0.0 <= x < m
    ensures 0.0 <= x / m < 1.0
  {
    var q := x / m;
    assert q * m == x;
    if q < 0.0 {
      MulPos(-q, m);
    }
    if q >= 1.0 {
      MulNonneg(q - 1.0, m);
    }
  }

  /** The representative x - floor(x / m) m lies in [0, m) and names the angle x. */
  lemma RemEuclidFacts(x: real, m: real)
    requires m > 0.0
    ensures 0.0 <= x - (x / m).Floor as real * m < m
    ensures SameAngle(x, x - (x / m).Floor as real * m, m)
  {
    var k := (x / m).Floor as real;
    FloorMultipleBelow(x, m);
    var r := x - k * m;
    assert x - r == k * m;
    assert (k * m) / m == k;
    assert (x - r) / m == k;
    assert k.Floor as real == k;
    assert ((x - r) / m).Floor as real == (x - r) / m;
    assert SameAngle(x, r, m);
    assert r == x - (x / m).Floor as real * m;
    assert SameAngle(x, x - (x / m).Floor as real * m, m);
  }

  /** On [0, m) the quotient's floor is 0. */
  lemma FloorInRange(x: real, m: real)
    requires m > 0.0 && 0.0 <= x < m
    ensures (x / m).Floor == 0
  {
    QuotientInUnit(x, m);
  }

  /** `f64::rem_euclid(x, m)` for m > 0: the representative of the angle x in [0, m). */
  function RemEuclid(x: real, m: real): (r: real)
    requires m > 0.0
    ensures 0.0 <= r < m
    ensures SameAngle(x, r, m)
    ensures 0.0 <= x < m ==> r == x
  {
    RemEuclidFacts(x, m);
    if 0.0 <= x < m then FloorInRange(x, m); x - (x / m).Floor as real * m
    else x - (x / m).Floor as real * m
  }

  /** Adding whole periods does not change the representative. */
  lemma RemEuclidPeriodic(x: real, m: real, n: int)
    requires m > 0.0
    ensures RemEuclid(x + n as real * m, m) == RemEuclid(x, m)
  {
    var q := x / m;
    assert (x + n as real * m) / m == q + n as real;
    assert (q + n as real).Floor == q.Floor + n;
  }

  /** Reducing before adding gives the same representative as reducing the sum. */
  lemma RemEuclidOfSum(x: real, y: real, m: real)
    requires m > 0.0
    ensures RemEuclid(RemEuclid(x, m) + y, m) == RemEuclid(x + y, m)
  {
    var r := RemEuclid(x, m);
    var k := (x / m).Floor;
    assert r == x - k as real * m;
    RemEuclidPeriodic(r + y, m, k);
    assert r + y + k as real * m == x + y;
  }

  datatype State5D = State5D(psi: real, rho: real, omega: real, theta: real, phi: real)

  /** Both phases lie in [0, 2 pi). */
  predicate OnTorus(s: State5D)
  {
    0.0 <= s.theta < TWO_PI && 0.0 <= s.phi < TWO_PI
  }

  /**
   * `State5D::new`: psi, rho and omega as given, theta and phi reduced
   * into [0, 2 pi) with `rem_euclid`; a phase already in range is kept.
   */
  function NewState(psi: real, rho: real, omega: real, theta: real, phi: real): (s: State5D)
    ensures s.psi == psi && s.rho == rho && s.omega == omega
    ensures OnTorus(s)
    ensures SameAngle(theta, s.theta, TWO_PI) && SameAngle(phi, s.phi, TWO_PI)
    ensures 0.0 <= theta < TWO_PI ==> s.theta == theta
    ensures 0.0 <= phi < TWO_PI ==> s.phi == phi
  {
    State5D(psi, rho, omega, RemEuclid(theta, TWO_PI), RemEuclid(phi, TWO_PI))
  }

  /** `Default`: `new(0.5, 0.5, 0.0, 0.0, 0.0)`. */
  function DefaultState(): State5D
  {
    NewState(0.5, 0.5, 0.0, 0.0, 0.0)
  }

  /**
   * `evolve_torus`: psi, rho and omega are kept; theta advances by
   * omega_theta dt and phi by omega_phi dt, both reduced again.
   */
  function EvolveTorus(s: State5D, dt: real, omegaTheta: real, omegaPhi: real): (r: State5D)
    ensures r.psi == s.psi && r.rho == s.rho && r.omega == s.omega
    ensures OnTorus(r)
    ensures SameAngle(s.theta + omegaTheta * dt, r.theta, TWO_PI)
    ensures SameAngle(s.phi + omegaPhi * dt, r.phi, TWO_PI)
  {
    NewState(s.psi, s.rho, s.omega, s.theta + omegaTheta * dt, s.phi + omegaPhi * dt)
  }

  /** Two steps of the torus flow are one step of the summed length. */
  lemma EvolveTorusComposes(s: State5D, dt1: real, dt2: real, omegaTheta: real, omegaPhi: real)
    ensures EvolveTorus(EvolveTorus(s, dt1, omegaTheta, omegaPhi), dt2, omegaTheta, omegaPhi)
            == EvolveTorus(s, dt1 + dt2, omegaTheta, omegaPhi)
  {
    assert s.theta + omegaTheta * dt1 + omegaTheta * dt2 == s.theta + omegaTheta * (dt1 + dt2);
    assert s.phi + omegaPhi * dt1 + omegaPhi * dt2 == s.phi + omegaPhi * (dt1 + dt2);
    RemEuclidOfSum(s.theta + omegaTheta * dt1, omegaTheta * dt2, TWO_PI);
    RemEuclidOfSum(s.phi + omegaPhi * dt1, omegaPhi * dt2, TWO_PI);
  }

  /** A step that turns both phases by whole turns leaves a state on the torus where it was. */
  lemma EvolveTorusWholeTurns(s: State5D, dt: real, omegaTheta: real, omegaPhi: real, turnsTheta: int, turnsPhi: int)
    requires OnTorus(s)
    requires omegaTheta * dt == turnsTheta as real * TWO_PI && omegaPhi * dt == turnsPhi as real * TWO_PI
    ensures EvolveTorus(s, dt, omegaTheta, omegaPhi) == s
  {
    RemEuclidPeriodic(s.theta, TWO_PI, turnsTheta);
    RemEuclidPeriodic(s.phi, TWO_PI, turnsPhi);
  }

  /** The torus step of the source's test: from the default, theta moves to 1 and phi to 1.5. */
  lemma TorusStepFromDefault()
    ensures EvolveTorus(DefaultState(), 1.0, 1.0, 1.5).theta == 1.0 != DefaultState().theta
    ensures EvolveTorus(DefaultState(), 1.0, 1.0, 1.5).phi == 1.5 != DefaultState().phi
  {
  }

  datatype Vector3 = Vector3(x: real, y: real, z: real)

  /** `Vector3::norm`: the Euclidean length, zero exactly for the zero vector. */
  function VectorNorm(v: Vector3, sqrt: real -> real): (n: real)
    requires IsSqrt(sqrt)
    ensures n >= 0.0
    ensures n == 0.0 <==> v == Vector3(0.0, 0.0, 0.0)
  {
    sqrt(Square(v.x) + Square(v.y) + Square(v.z))
  }

  /** The least axis norm `QuaternionRotation::new` accepts (exclusive). */
  const AXIS_EPSILON: real := 0.0000000001

  datatype QuaternionRotation = QuaternionRotation(angle: real, axis: Vector3)

  /** `QuaternionRotation::new`: panics unless the axis norm exceeds 1e-10; stores the axis divided by its norm. */
  function NewRotation(angle: real, axis: Vector3, sqrt: real -> real): (q: QuaternionRotation)
    requires IsSqrt(sqrt) && VectorNorm(axis, sqrt) > AXIS_EPSILON
    ensures q.angle == angle
    ensures var n := VectorNorm(axis, sqrt);
            q.axis.x * n == axis.x && q.axis.y * n == axis.y && q.axis.z * n == axis.z
  {
    var n := VectorNorm(axis, sqrt);
    QuaternionRotation(angle, Vector3(axis.x / n, axis.y / n, axis.z / n))
  }

  /** A square is the product of the base with itself. */
  lemma SquareIsProduct(x: real)
    ensures Square(x) == x * x
  {
  }

  /** The square of a quotient is the quotient of the squares. */
  lemma SquareOfQuotient(x: real, n: real)
    requires n > 0.0
    ensures Square(x / n) == Square(x) / (n * n)
  {
    SquareIsProduct(x);
    SquareIsProduct(x / n);
    SquareIsProduct(n);
  }

  /** a/d + b/d + c/d is 1 when d is a + b + c. */
  lemma SumOfQuotients(a: real, b: real, c: real, d: real)
    requires d > 0.0 && d == a + b + c
    ensures a / d + b / d + c / d == 1.0
  {
  }

  /** With the real square root, sqrt(1) is 1. */
  lemma SqrtOfOne(sqrt: real -> real)
    requires IsSqrt(sqrt) && SquaresBack(sqrt)
    ensures sqrt(1.0) == 1.0
  {
    var s := sqrt(1.0);
    assert s * s == 1.0 && s >= 0.0;
    if s > 1.0 {
      MulPos(s - 1.0, s + 1.0);
    } else if s < 1.0 {
      MulNonneg(s, 1.0 - s);
    }
  }

  /** With the real square root, the stored axis has length 1. */
  lemma RotationAxisIsUnit(angle: real, axis: Vector3, sqrt: real -> real)
    requires IsSqrt(sqrt) && SquaresBack(sqrt) && VectorNorm(axis, sqrt) > AXIS_EPSILON
    ensures VectorNorm(NewRotation(angle, axis, sqrt).axis, sqrt) == 1.0
  {
    var n := VectorNorm(axis, sqrt);
    var t := Square(axis.x) + Square(axis.y) + Square(axis.z);
    assert n * n == t;
    var u := NewRotation(angle, axis, sqrt).axis;
    SquareOfQuotient(axis.x, n);
    SquareOfQuotient(axis.y, n);
    SquareOfQuotient(axis.z, n);
    SumOfQuotients(Square(axis.x), Square(axis.y), Square(axis.z), n * n);
    SqrtOfOne(sqrt);
  }

  /**
   * The plane rotation both `apply_psi_*` use before clamping, with the
   * half angle's cosine c and sine s and the axis component a:
   * (c u - s a v, s a u + c v).
   */
  function Rotate(angle: real, a: real, u: real, v: real, sin: real -> real, cos: real -> real): (real, real)
  {
    var c := cos(angle / 2.0);
    var s := sin(angle / 2.0);
    (c * u - s * a * v, s * a * u + c * v)
  }

  /**
   * When the axis component is a unit and cos^2 + sin^2 = 1 holds at the
   * half angle, the plane rotation keeps u^2 + v^2.
   */
  lemma RotatePreservesLength(angle: real, a: real, u: real, v: real, sin: real -> real, cos: real -> real)
    requires a * a == 1.0
    requires cos(angle / 2.0) * cos(angle / 2.0) + sin(angle / 2.0) * sin(angle / 2.0) == 1.0
    ensures var (p, w) := Rotate(angle, a, u, v, sin, cos); p * p + w * w == u * u + v * v
  {
    var c := cos(angle / 2.0);
    var s := sin(angle / 2.0);
    var (p, w) := Rotate(angle, a, u, v, sin, cos);
    assert p * p == c * c * u * u - 2.0 * c * s * a * u * v + s * s * (a * a) * v * v;
    assert w * w == s * s * (a * a) * u * u + 2.0 * c * s * a * u * v + c * c * v * v;
    assert p * p + w * w == (c * c + s * s) * (u * u + v * v);
  }

  /**
   * `apply_psi_rho`: the rotation about the axis' x component, with both
   * outputs clamped into [0, 1]; an output already in range is unchanged.
   */
  function ApplyPsiRho(q: QuaternionRotation, psi: real, rho: real, sin: real -> real, cos: real -> real): (r: (real, real))
    ensures 0.0 <= r.0 <= 1.0 && 0.0 <= r.1 <= 1.0
    ensures var (p, w) := Rotate(q.angle, q.axis.x, psi, rho, sin, cos);
            (0.0 <= p <= 1.0 ==> r.0 == p) && (0.0 <= w <= 1.0 ==> r.1 == w)
  {
    var (p, w) := Rotate(q.angle, q.axis.x, psi, rho, sin, cos);
    (Clamp(p, 0.0, 1.0), Clamp(w, 0.0, 1.0))
  }

  /**
   * `apply_psi_omega`: the rotation about the axis' y component; psi is
   * clamped into [0, 1], the frequency is returned unclamped.
   */
  function ApplyPsiOmega(q: QuaternionRotation, psi: real, omega: real, sin: real -> real, cos: real -> real): (r: (real, real))
    ensures 0.0 <= r.0 <= 1.0
    ensures var (p, w) := Rotate(q.angle, q.axis.y, psi, omega, sin, cos);
            (0.0 <= p <= 1.0 ==> r.0 == p) && r.1 == w
  {
    var (p, w) := Rotate(q.angle, q.axis.y, psi, omega, sin, cos);
    (Clamp(p, 0.0, 1.0), w)
  }

  /** A rotation by 0 leaves an in-range (psi, rho) pair, and any (psi, omega) pair with psi in range, as they are. */
  lemma ZeroAngleIsIdentity(q: QuaternionRotation, psi: real, rho: real, omega: real, sin: real -> real, cos: real -> real)
    requires q.angle == 0.0 && sin(0.0) == 0.0 && cos(0.0) == 1.0
    requires 0.0 <= psi <= 1.0 && 0.0 <= rho <= 1.0
    ensures ApplyPsiRho(q, psi, rho, sin, cos) == (psi, rho)
    ensures ApplyPsiOmega(q, psi, omega, sin, cos) == (psi, omega)
  {
    assert q.angle / 2.0 == 0.0;
    assert cos(q.angle / 2.0) == 1.0 && sin(q.angle / 2.0) == 0.0;
    assert Rotate(q.angle, q.axis.x, psi, rho, sin, cos).0 == psi;
    assert Rotate(q.angle, q.axis.x, psi, rho, sin, cos).1 == rho;
    assert Rotate(q.angle, q.axis.y, psi, omega, sin, cos).0 == psi;
    assert Rotate(q.angle, q.axis.y, psi, omega, sin, cos).1 == omega;
  }

  /**
   * The source's quarter turn about the x axis: with the real square root
   * and a cosine and sine of pi/4 strictly between 0 and 1, (1, 0) goes to
   * a pair strictly inside (0, 1).
   */
  lemma QuarterTurnMixesPsiAndRho(sqrt: real -> real, sin: real -> real, cos: real -> real)
    requires IsSqrt(sqrt) && SquaresBack(sqrt)
    requires 0.0 < cos(PI / 4.0) < 1.0 && 0.0 < sin(PI / 4.0) < 1.0
    ensures VectorNorm(Vector3(1.0, 0.0, 0.0), sqrt) > AXIS_EPSILON
    ensures var r := ApplyPsiRho(NewRotation(PI / 2.0, Vector3(1.0, 0.0, 0.0), sqrt), 1.0, 0.0, sin, cos);
            0.0 < r.0 < 1.0 && 0.0 < r.1 < 1.0
  {
    SqrtOfOne(sqrt);
    assert Square(1.0) + Square(0.0) + Square(0.0) == 1.0;
    var q := NewRotation(PI / 2.0, Vector3(1.0, 0.0, 0.0), sqrt);
    assert q.axis.x == 1.0;
    assert q.angle / 2.0 == PI / 4.0;
  }

  /** The 13 energies of a scaling operator. */
  type Energies = s: seq<real> | |s| == HILBERT_DIM
    witness seq(13, k => 0.0)

  datatype ScalingOperator = ScalingOperator(lambda: real, energies: Energies)

  /** `ScalingOperator::uniform`: every energy equal to the one given. */
  function UniformScaling(lambda: real, energy: real): (op: ScalingOperator)
    ensures op.lambda == lambda
    ensures forall i | 0 <= i < HILBERT_DIM :: op.energies[i] == energy
  {
    ScalingOperator(lambda, seq(HILBERT_DIM, k => energy))
  }

  /** The factor exp(lambda e) of an amplitude of energy e. */
  function ScaleFactor(lambda: real, energy: real, exp: real -> real): real
  {
    exp(lambda * energy)
  }

  /**
   * The amplitudes of `apply` before normalisation: each a_i multiplied by
   * the real factor exp(lambda e_i).
   */
  function Scaled(op: ScalingOperator, v: Amplitudes, exp: real -> real): Amplitudes
  {
    seq(HILBERT_DIM, i requires 0 <= i < HILBERT_DIM => CScale(ScaleFactor(op.lambda, op.energies[i], exp), v[i]))
  }

  /** `ScalingOperator::apply`: the scaled amplitudes, normalised by `QuantumState::new`. */
  function ApplyScaling(op: ScalingOperator, state: QuantumState, exp: real -> real, normalize: Amplitudes -> QuantumState): QuantumState
  {
    normalize(Scaled(op, state.amplitudes, exp))
  }

  /** A uniform operator multiplies every amplitude by the same positive factor exp(lambda e). */
  lemma UniformScalingIsGlobalFactor(lambda: real, energy: real, v: Amplitudes, exp: real -> real)
    requires IsExp(exp)
    ensures Scaled(UniformScaling(lambda, energy), v, exp) == VScale(v, exp(lambda * energy))
    ensures exp(lambda * energy) > 0.0
  {
    var op := UniformScaling(lambda, energy);
    var f := exp(lambda * energy);
    forall i | 0 <= i < HILBERT_DIM
      ensures Scaled(op, v, exp)[i] == VScale(v, f)[i]
    {
      assert op.energies[i] == energy;
      assert ScaleFactor(op.lambda, op.energies[i], exp) == f;
    }
  }

  datatype WormholeOperator = WormholeOperator(fromNode: nat, toNode: nat, kappa: real)

  /** Both ends are nodes and they differ. */
  predicate ValidWormhole(w: WormholeOperator)
  {
    w.fromNode < HILBERT_DIM && w.toNode < HILBERT_DIM && w.fromNode != w.toNode
  }

  /**
   * `WormholeOperator::new`: panics unless both nodes are below 13 and the
   * graph has the edge; the operator it returns joins two distinct
   * adjacent nodes.
   */
  function NewWormhole(fromNode: nat, toNode: nat, kappa: real, graph: Metatron.MetatronGraph): (w: WormholeOperator)
    requires fromNode < HILBERT_DIM && toNode < HILBERT_DIM
    requires graph.Valid() && graph.HasEdge(fromNode, toNode)
    ensures w.fromNode == fromNode && w.toNode == toNode && w.kappa == kappa
    ensures ValidWormhole(w) && Metatron.Adjacent(w.fromNode, w.toNode)
  {
    WormholeOperator(fromNode, toNode, kappa)
  }

  const ZERO: Complex := Complex(0.0, 0.0)

  const ONE: Complex := Complex(1.0, 0.0)

  /** The 13 x 13 identity matrix. */
  function Identity(): seq<seq<Complex>>
  {
    seq(HILBERT_DIM, i => seq(HILBERT_DIM, j => if i == j then ONE else ZERO))
  }

  /** `mat[(i, j)] = c`. */
  function SetEntry(m: seq<seq<Complex>>, i: nat, j: nat, c: Complex): seq<seq<Complex>>
    requires i < |m| && j < |m[i]|
  {
    m[i := m[i][j := c]]
  }

  /**
   * `WormholeOperator::matrix`: the identity with kappa written at
   * (from, to) and at (to, from); the diagonal stays 1.
   */
  function WormholeMatrix(w: WormholeOperator): (m: seq<seq<Complex>>)
    requires ValidWormhole(w)
    ensures Metatron.IsMatrix(m)
    ensures forall i, j | 0 <= i < HILBERT_DIM && 0 <= j < HILBERT_DIM ::
              m[i][j] == if (i == w.fromNode && j == w.toNode) || (i == w.toNode && j == w.fromNode) then Complex(w.kappa, 0.0)
                         else if i == j then ONE else ZERO
  {
    var k := Complex(w.kappa, 0.0);
    SetEntry(SetEntry(Identity(), w.fromNode, w.toNode, k), w.toNode, w.fromNode, k)
  }

  /** The wormhole matrix is symmetric with a unit diagonal. */
  lemma WormholeMatrixSymmetric(w: WormholeOperator)
    requires ValidWormhole(w)
    ensures forall i, j | 0 <= i < HILBERT_DIM && 0 <= j < HILBERT_DIM :: WormholeMatrix(w)[i][j] == WormholeMatrix(w)[j][i]
    ensures forall i | 0 <= i < HILBERT_DIM :: WormholeMatrix(w)[i][i] == ONE
  {
  }

  /** `kappa * z` for a real kappa and a complex z. */
  function CScale(kappa: real, z: Complex): Complex
  {
    Complex(kappa * z.re, kappa * z.im)
  }

  /**
   * The amplitudes of `WormholeOperator::apply` before normalisation:
   * a_from += kappa a_to and a_to += kappa a_from, both read from the old
   * amplitudes.
   */
  function Transfer(w: WormholeOperator, v: Amplitudes): Amplitudes
    requires ValidWormhole(w)
  {
    v[w.fromNode := CAdd(v[w.fromNode], CScale(w.kappa, v[w.toNode]))][w.toNode := CAdd(v[w.toNode], CScale(w.kappa, v[w.fromNode]))]
  }

  /** `WormholeOperator::apply`: the transferred amplitudes, normalised by `QuantumState::new`. */
  function ApplyWormhole(w: WormholeOperator, state: QuantumState, normalize: Amplitudes -> QuantumState): QuantumState
    requires ValidWormhole(w)
  {
    normalize(Transfer(w, state.amplitudes))
  }

  /** The first n terms of row . v. */
  function RowDot(row: seq<Complex>, v: Amplitudes, n: nat): Complex
    requires n <= |row| && n <= HILBERT_DIM
  {
    if n == 0 then ZERO else CAdd(RowDot(row, v, n - 1), CMul(row[n - 1], v[n - 1]))
  }

  /** The matrix-vector product M v. */
  function MatVec(m: seq<seq<Complex>>, v: Amplitudes): Amplitudes
    requires Metatron.IsMatrix(m)
  {
    seq(HILBERT_DIM, i requires 0 <= i < HILBERT_DIM => RowDot(m[i], v, HILBERT_DIM))
  }

  /** The term of position j in the first n terms of row . v. */
  function Term(row: seq<Complex>, v: Amplitudes, j: nat, n: nat): Complex
    requires j < |row| && j < HILBERT_DIM
  {
    if j < n then CMul(row[j], v[j]) else ZERO
  }

  /** A row that is zero outside two positions p and q contributes only those two terms. */
  lemma RowDotSparse(row: seq<Complex>, v: Amplitudes, n: nat, p: nat, q: nat)
    requires |row| == HILBERT_DIM && n <= HILBERT_DIM && p < HILBERT_DIM && q < HILBERT_DIM && p != q
    requires forall j | 0 <= j < HILBERT_DIM && j != p && j != q :: row[j] == ZERO
    ensures RowDot(row, v, n) == CAdd(Term(row, v, p, n), Term(row, v, q, n))
  {
    var t := Products(row, v);
    RowDotIsSum(row, v, n);
    forall j | 0 <= j < HILBERT_DIM && j != p && j != q
      ensures t[j] == ZERO
    {
      CMulByZero(v[j]);
    }
    CSumSparse(t, n, p, q);
    assert Term(row, v, p, n) == Pick(t, p, n) && Term(row, v, q, n) == Pick(t, q, n);
  }

  /** The entrywise products row[j] * v[j]. */
  function Products(row: seq<Complex>, v: Amplitudes): (t: seq<Complex>)
    requires |row| == HILBERT_DIM
    ensures |t| == HILBERT_DIM && forall j :: 0 <= j < HILBERT_DIM ==> t[j] == CMul(row[j], v[j])
  {
    seq(HILBERT_DIM, j requires 0 <= j < HILBERT_DIM => CMul(row[j], v[j]))
  }

  /** The complex sum of the first n entries of t. */
  function CSum(t: seq<Complex>, n: nat): Complex
    requires n <= |t|
  {
    if n == 0 then ZERO else CAdd(CSum(t, n - 1), t[n - 1])
  }

  /** A row dot product is the sum of the entrywise products. */
  lemma {:induction false} RowDotIsSum(row: seq<Complex>, v: Amplitudes, n: nat)
    requires |row| == HILBERT_DIM && n <= HILBERT_DIM
    ensures RowDot(row, v, n) == CSum(Products(row, v), n)
    decreases n
  {
    if n > 0 {
      RowDotIsSum(row, v, n - 1);
    }
  }

  /** Entry p of t when it lies among the first n, zero otherwise. */
  function Pick(t: seq<Complex>, p: nat, n: nat): Complex
    requires p < |t|
  {
    if p < n then t[p] else ZERO
  }

  /** A sum whose entries vanish outside p and q is the sum of those two (those below n). */
  lemma CSumSparse(t: seq<Complex>, n: nat, p: nat, q: nat)
    requires n <= |t| && p < |t| && q < |t| && p != q
    requires forall j | 0 <= j < |t| && j != p && j != q :: t[j] == ZERO
    ensures CSum(t, n) == CAdd(Pick(t, p, n), Pick(t, q, n))
  {
    CSumSparseParts(t, n, p, q);
  }

  /** The real and imaginary parts of a sparse sum, one component at a time. */
  lemma {:induction false} CSumSparseParts(t: seq<Complex>, n: nat, p: nat, q: nat)
    requires n <= |t| && p < |t| && q < |t| && p != q
    requires forall j | 0 <= j < |t| && j != p && j != q :: t[j] == ZERO
    ensures CSum(t, n).re == Pick(t, p, n).re + Pick(t, q, n).re
    ensures CSum(t, n).im == Pick(t, p, n).im + Pick(t, q, n).im
    decreases n
  {
    if n > 0 {
      var j := n - 1;
      CSumSparseParts(t, j, p, q);
      assert CSum(t, n).re == CSum(t, j).re + t[j].re && CSum(t, n).im == CSum(t, j).im + t[j].im;
      if j == p {
        assert Pick(t, p, j) == ZERO && Pick(t, p, n) == t[j] && Pick(t, q, n) == Pick(t, q, j);
      } else if j == q {
        assert Pick(t, q, j) == ZERO && Pick(t, q, n) == t[j] && Pick(t, p, n) == Pick(t, p, j);
      } else {
        assert t[j] == ZERO;
        assert Pick(t, p, n) == Pick(t, p, j) && Pick(t, q, n) == Pick(t, q, j);
      }
    }
  }

  lemma CMulByOne(z: Complex)
    ensures CMul(ONE, z) == z
  {
  }

  lemma CMulByReal(kappa: real, z: Complex)
    ensures CMul(Complex(kappa, 0.0), z) == CScale(kappa, z)
  {
  }

  lemma CMulByZero(z: Complex)
    ensures CMul(ZERO, z) == ZERO
  {
  }

  /** Row i of M v, for a row of M that is `a` at p, `b` at q and zero elsewhere. */
  lemma RowDotOfTwo(m: seq<seq<Complex>>, v: Amplitudes, i: nat, p: nat, q: nat)
    requires Metatron.IsMatrix(m) && i < HILBERT_DIM && p < HILBERT_DIM && q < HILBERT_DIM && p != q
    requires forall j | 0 <= j < HILBERT_DIM && j != p && j != q :: m[i][j] == ZERO
    ensures MatVec(m, v)[i] == CAdd(CMul(m[i][p], v[p]), CMul(m[i][q], v[q]))
  {
    RowDotSparse(m[i], v, HILBERT_DIM, p, q);
  }

  /** Row `from` of the matrix product is a_from + kappa a_to. */
  lemma MatVecAtFrom(w: WormholeOperator, v: Amplitudes)
    requires ValidWormhole(w)
    ensures MatVec(WormholeMatrix(w), v)[w.fromNode] == Transfer(w, v)[w.fromNode]
  {
    var m := WormholeMatrix(w);
    RowDotOfTwo(m, v, w.fromNode, w.fromNode, w.toNode);
    CMulByOne(v[w.fromNode]);
    CMulByReal(w.kappa, v[w.toNode]);
  }

  /** Row `to` of the matrix product is a_to + kappa a_from. */
  lemma MatVecAtTo(w: WormholeOperator, v: Amplitudes)
    requires ValidWormhole(w)
    ensures MatVec(WormholeMatrix(w), v)[w.toNode] == Transfer(w, v)[w.toNode]
  {
    var m := WormholeMatrix(w);
    RowDotOfTwo(m, v, w.toNode, w.toNode, w.fromNode);
    CMulByOne(v[w.toNode]);
    CMulByReal(w.kappa, v[w.fromNode]);
  }

  /** Every other row of the matrix product keeps its amplitude. */
  lemma MatVecElsewhere(w: WormholeOperator, v: Amplitudes, i: nat)
    requires ValidWormhole(w) && i < HILBERT_DIM && i != w.fromNode && i != w.toNode
    ensures MatVec(WormholeMatrix(w), v)[i] == Transfer(w, v)[i]
  {
    var m := WormholeMatrix(w);
    RowDotOfTwo(m, v, i, i, w.fromNode);
    CMulByOne(v[i]);
    CMulByZero(v[w.fromNode]);
  }

  /** `apply` multiplies the amplitudes by `matrix` before normalising. */
  lemma TransferIsMatrixProduct(w: WormholeOperator, v: Amplitudes)
    requires ValidWormhole(w)
    ensures Transfer(w, v) == MatVec(WormholeMatrix(w), v)
  {
    forall i | 0 <= i < HILBERT_DIM
      ensures Transfer(w, v)[i] == MatVec(WormholeMatrix(w), v)[i]
    {
      if i == w.fromNode {
        MatVecAtFrom(w, v);
      } else if i == w.toNode {
        MatVecAtTo(w, v);
      } else {
        MatVecElsewhere(w, v, i);
      }
    }
  }

  /** The source's transfer from the centre to node 1 with kappa 0.5 puts amplitude 0.5 on node 1 of |0>. */
  lemma CentreTransferReachesNodeOne(graph: Metatron.MetatronGraph)
    requires graph.Valid()
    ensures graph.HasEdge(0, 1)
    ensures Transfer(NewWormhole(0, 1, 0.5, graph), BasisZero().amplitudes)[1] == Complex(0.5, 0.0)
  {
    assert Metatron.CenterEdge(0, 1);
  }

  datatype TopologicalGuards = TopologicalGuards(minBetti: real, minSpectralGap: real, maxCoherenceGradient: real)

  /** `default_guards`: Betti number at least 1, spectral gap at least 0.1, coherence gradient at most 0.01. */
  function DefaultGuards(): TopologicalGuards
  {
    TopologicalGuards(1.0, 0.1, 0.01)
  }

  /** `check`: all three guards hold. */
  predicate Check(g: TopologicalGuards, betti: real, spectralGap: real, coherenceGradient: real)
  {
    betti >= g.minBetti && spectralGap >= g.minSpectralGap && coherenceGradient <= g.maxCoherenceGradient
  }

  /**
   * The guards are monotone: a larger Betti number or gap, or a smaller
   * gradient, never breaks a passing check; and the source's four cases.
   */
  lemma CheckIsMonotone(g: TopologicalGuards, betti: real, gap: real, gradient: real, betti': real, gap': real, gradient': real)
    requires Check(g, betti, gap, gradient)
    requires betti' >= betti && gap' >= gap && gradient' <= gradient
    ensures Check(g, betti', gap', gradient')
    ensures Check(DefaultGuards(), 1.5, 0.2, 0.005)
    ensures !Check(DefaultGuards(), 0.5, 0.2, 0.005) && !Check(DefaultGuards(), 1.5, 0.05, 0.005)
    ensures !Check(DefaultGuards(), 1.5, 0.2, 0.02)
  {
  }
}
