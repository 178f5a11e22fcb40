/**
 * Shared numeric vocabulary of the model.
 *
 * `f64` is modelled as `real` (no rounding, no NaN, no infinities).  The
 * transcendental functions, the quantum fidelity and the other routines
 * whose bodies are not part of this model are passed in as function
 * values; the predicates below record the only properties the modelled
 * code relies on.
 */
module Numerics {

  datatype Option<T> = None | Some(value: T)

  datatype Complex = Complex(re: real, im: real)

  const HILBERT_DIM: nat := 13

  /** `std::f64::consts::PI`, as the literal of the double closest to pi. */
  const PI: real := 3.141592653589793

  /** An amplitude vector of the 13-dimensional Hilbert space. */
  type Amplitudes = s: seq<Complex> | |s| == HILBERT_DIM
    witness seq(13, k => Complex(0.0, 0.0))

  /** A state of the 13-dimensional Hilbert space. */
  datatype QuantumState = QuantumState(amplitudes: Amplitudes)

  /** `f64::sqrt` on non-negative arguments: non-negative, zero exactly at zero. */
  ghost predicate IsSqrt(f: real -> real)
  {
    forall x :: 0.0 <= x ==> 0.0 <= f(x) && (f(x) == 0.0 <==> x == 0.0)
  }

  /** `sqrt` taken as the real square root: squaring it gives the argument back. */
  ghost predicate SquaresBack(sqrt: real -> real)
  {
    forall x :: 0.0 <= x ==> sqrt(x) * sqrt(x) == x
  }

  /** `f64::exp`: positive, 1 at 0, at most 1 on non-positive arguments. */
  ghost predicate IsExp(f: real -> real)
  {
    f(0.0) == 1.0 && forall x :: 0.0 < f(x) && (x <= 0.0 ==> f(x) <= 1.0)
  }

  /** `f64::ln` / `f64::log2`: zero at 1, non-positive on (0, 1]. */
  ghost predicate IsLog(f: real -> real)
  {
    f(1.0) == 0.0 && forall x :: 0.0 < x <= 1.0 ==> f(x) <= 0.0
  }

  /** `f64::sin` / `f64::cos`: values in [-1, 1]. */
  ghost predicate IsTrig(f: real -> real)
  {
    forall x :: -1.0 <= f(x) <= 1.0
  }

  /** Quantum fidelity |<a|b>|^2 of normalised states: in [0, 1], symmetric, 1 on equal states. */
  ghost predicate IsFidelity(f: (QuantumState, QuantumState) -> real)
  {
    (forall a, b :: 0.0 <= f(a, b) <= 1.0 && f(a, b) == f(b, a))
    && (forall a :: f(a, a) == 1.0)
  }

  /**
   * The transcendental functions of `f64`, as used by the modelled code.
   * `ln` and `log2` share one abstraction: only their sign on (0, 1] and
   * their zero at 1 are relied on.
   */
  datatype MathFns = MathFns(
    sqrt: real -> real,
    exp: real -> real,
    ln: real -> real,
    log2: real -> real,
    sin: real -> real,
    cos: real -> real)

  ghost predicate ValidMath(m: MathFns)
  {
    IsSqrt(m.sqrt) && IsExp(m.exp) && IsLog(m.ln) && IsLog(m.log2) && IsTrig(m.sin) && IsTrig(m.cos)
  }

  /**
   * The quantum-state routines of the Hilbert-space module: the fidelity
   * and `QuantumState::new`, which normalises an amplitude vector.
   */
  datatype QuantumOps = QuantumOps(
    fidelity: (QuantumState, QuantumState) -> real,
    normalize: Amplitudes -> QuantumState)

  ghost predicate ValidQuantum(q: QuantumOps)
  {
    IsFidelity(q.fidelity)
  }

  function CAdd(a: Complex, b: Complex): Complex
  {
    Complex(a.re + b.re, a.im + b.im)
  }

  function CMul(a: Complex, b: Complex): Complex
  {
    Complex(a.re * b.re - a.im * b.im, a.re * b.im + a.im * b.re)
  }

  function CConj(a: Complex): Complex
  {
    Complex(a.re, -a.im)
  }

  /** `v.scale(r)` on an amplitude vector. */
  function VScale(v: Amplitudes, r: real): Amplitudes
  {
    seq(HILBERT_DIM, k requires 0 <= k < HILBERT_DIM => Complex(r * v[k].re, r * v[k].im))
  }

  /** `v * c` for a complex scalar c. */
  function VScaleComplex(v: Amplitudes, c: Complex): Amplitudes
  {
    seq(HILBERT_DIM, k requires 0 <= k < HILBERT_DIM => CMul(v[k], c))
  }

  /** Component-wise sum of two amplitude vectors. */
  function VAdd(a: Amplitudes, b: Amplitudes): Amplitudes
  {
    seq(HILBERT_DIM, k requires 0 <= k < HILBERT_DIM => CAdd(a[k], b[k]))
  }

  /** Component-wise product of two amplitude vectors. */
  function VMul(a: Amplitudes, b: Amplitudes): Amplitudes
  {
    seq(HILBERT_DIM, k requires 0 <= k < HILBERT_DIM => CMul(a[k], b[k]))
  }

  /** `a.inner_product(b)`: the sum of conj(a_k) * b_k. */
  function InnerProduct(a: QuantumState, b: QuantumState): Complex
  {
    InnerProductUpTo(a.amplitudes, b.amplitudes, HILBERT_DIM)
  }

  function InnerProductUpTo(a: Amplitudes, b: Amplitudes, n: nat): Complex
    requires n <= HILBERT_DIM
  {
    if n == 0 then Complex(0.0, 0.0)
    else CAdd(InnerProductUpTo(a, b, n - 1), CMul(CConj(a[n - 1]), b[n - 1]))
  }

  /** `QuantumState::default()`: the basis state |0>. */
  function BasisZero(): QuantumState
  {
    QuantumState(seq(HILBERT_DIM, k => if k == 0 then Complex(1.0, 0.0) else Complex(0.0, 0.0)))
  }

  function Abs(x: real): (r: real)
    ensures r >= 0.0
    ensures r == x || r == -x
  {
    if x < 0.0 then -x else x
  }

  function Max(a: real, b: real): (r: real)
    ensures r >= a && r >= b
    ensures r == a || r == b
  {
    if a >= b then a else b
  }

  function Min(a: real, b: real): (r: real)
    ensures r <= a && r <= b
    ensures r == a || r == b
  {
    if a <= b then a else b
  }

  /** `f64::clamp(x, lo, hi)`. */
  function Clamp(x: real, lo: real, hi: real): (r: real)
    requires lo <= hi
    ensures lo <= r <= hi
    ensures lo <= x <= hi ==> r == x
    ensures x < lo ==> r == lo
    ensures x > hi ==> r == hi
  {
    if x < lo then lo else if x > hi then hi else x
  }

  /** `usize::is_power_of_two`: 1, and every even number whose half is a power of two. */
  predicate IsPowerOfTwo(n: nat)
    decreases n
  {
    n == 1 || (n > 1 && n % 2 == 0 && IsPowerOfTwo(n / 2))
  }

  /** Left-to-right sum, the value of an accumulating `+=` loop. */
  function Sum(s: seq<real>): real
  {
    if |s| == 0 then 0.0 else Sum(s[..|s| - 1]) + s[|s| - 1]
  }

  /** Sum of squares. */
  function SumSq(s: seq<real>): (r: real)
    ensures r >= 0.0
    ensures (forall k :: 0 <= k < |s| ==> s[k] == 0.0) ==> r == 0.0
  {
    if |s| == 0 then 0.0
    else
      var pre := s[..|s| - 1];
      var x := s[|s| - 1];
      SquareNonneg(x);
      assert (forall k :: 0 <= k < |s| ==> s[k] == 0.0) ==>
             (x == 0.0 && forall k :: 0 <= k < |pre| ==> pre[k] == 0.0);
      SumSq(pre) + x * x
  }

  /** Sum of squared differences of two equally long vectors. */
  function SumSqDiff(a: seq<real>, b: seq<real>): (r: real)
    requires |a| == |b|
    ensures r >= 0.0
    ensures a == b ==> r == 0.0
  {
    if |a| == 0 then 0.0
    else
      var d := a[|a| - 1] - b[|b| - 1];
      SquareNonneg(d);
      SumSqDiff(a[..|a| - 1], b[..|b| - 1]) + d * d
  }

  /** Euclidean norm of a real vector. */
  function Norm(s: seq<real>, sqrt: real -> real): (r: real)
    requires IsSqrt(sqrt)
    ensures r >= 0.0
    ensures (forall k :: 0 <= k < |s| ==> s[k] == 0.0) ==> r == 0.0
  {
    sqrt(SumSq(s))
  }

  /** Euclidean distance of two equally long vectors. */
  function Distance(a: seq<real>, b: seq<real>, sqrt: real -> real): (r: real)
    requires |a| == |b| && IsSqrt(sqrt)
    ensures r >= 0.0
    ensures a == b ==> r == 0.0
  {
    sqrt(SumSqDiff(a, b))
  }

  lemma {:induction false} SumBounds(s: seq<real>, lo: real, hi: real)
    requires forall k :: 0 <= k < |s| ==> lo <= s[k] <= hi
    ensures lo * |s| as real <= Sum(s) <= hi * |s| as real
    decreases |s|
  {
    if |s| > 0 {
      SumBounds(s[..|s| - 1], lo, hi);
    }
  }

  /** Scaling every entry scales the sum. */
  lemma {:induction false} SumScaled(s: seq<real>, t: seq<real>, f: real)
    requires |s| == |t| && forall k :: 0 <= k < |s| ==> t[k] == s[k] * f
    ensures Sum(t) == Sum(s) * f
    decreases |s|
  {
    if |s| > 0 {
      SumScaled(s[..|s| - 1], t[..|t| - 1], f);
    }
  }

  /** A non-empty sequence of positive entries has a positive sum. */
  lemma {:induction false} SumPositive(s: seq<real>)
    requires |s| > 0 && forall k :: 0 <= k < |s| ==> s[k] > 0.0
    ensures Sum(s) > 0.0
    decreases |s|
  {
    if |s| > 1 {
      SumPositive(s[..|s| - 1]);
    }
  }

  /** Replacing one entry changes the sum by the difference. */
  lemma {:induction false} SumUpdate(s: seq<real>, i: nat, v: real)
    requires i < |s|
    ensures Sum(s[i := v]) == Sum(s) - s[i] + v
    decreases |s|
  {
    var n := |s|;
    if i == n - 1 {
      assert s[i := v][..n - 1] == s[..n - 1];
    } else {
      assert s[i := v][..n - 1] == s[..n - 1][i := v];
      SumUpdate(s[..n - 1], i, v);
    }
  }

  /** For entries in [0, 1] the squares sum to at most the entries. */
  lemma {:induction false} SumSqAtMostSum(s: seq<real>)
    requires forall k :: 0 <= k < |s| ==> 0.0 <= s[k] <= 1.0
    ensures SumSq(s) <= Sum(s)
    decreases |s|
  {
    if |s| > 0 {
      var x := s[|s| - 1];
      SumSqAtMostSum(s[..|s| - 1]);
      MulNonneg(x, 1.0 - x);
    }
  }

  lemma {:induction false} SumAppend(s: seq<real>, x: real)
    ensures Sum(s + [x]) == Sum(s) + x
  {
    assert (s + [x])[..|s|] == s;
  }

  lemma {:induction false} SumPrefixStep(s: seq<real>, i: nat)
    requires i < |s|
    ensures Sum(s[..i + 1]) == Sum(s[..i]) + s[i]
  {
    assert s[..i + 1][..i] == s[..i];
  }

  lemma {:induction false} SumSqPrefixStep(s: seq<real>, i: nat)
    requires i < |s|
    ensures SumSq(s[..i + 1]) == SumSq(s[..i]) + s[i] * s[i]
  {
    assert s[..i + 1][..i] == s[..i];
  }

  /** `elements.iter().max_by(partial_cmp)`: index of the LAST maximum; 0 on an empty sequence. */
  function LastMaxIndex(s: seq<real>): (i: nat)
    ensures |s| == 0 ==> i == 0
    ensures |s| > 0 ==>
              i < |s|
              && (forall k :: 0 <= k < |s| ==> s[k] <= s[i])
              && (forall k :: i < k < |s| ==> s[k] < s[i])
  {
    if |s| <= 1 then 0
    else
      var j := LastMaxIndex(s[..|s| - 1]);
      assert forall k :: 0 <= k < |s| - 1 ==> s[..|s| - 1][k] == s[k];
      if s[|s| - 1] >= s[j] then |s| - 1 else j
  }

  /** `elements.iter().min_by(partial_cmp)`: index of the FIRST minimum; 0 on an empty sequence. */
  function FirstMinIndex(s: seq<real>): (i: nat)
    ensures |s| == 0 ==> i == 0
    ensures |s| > 0 ==>
              i < |s|
              && (forall k :: 0 <= k < |s| ==> s[i] <= s[k])
              && (forall k :: 0 <= k < i ==> s[i] < s[k])
  {
    if |s| <= 1 then 0
    else
      var j := FirstMinIndex(s[..|s| - 1]);
      assert forall k :: 0 <= k < |s| - 1 ==> s[..|s| - 1][k] == s[k];
      if s[|s| - 1] < s[j] then |s| - 1 else j
  }

  /** Number of entries above a bound. */
  function CountAbove(s: seq<real>, bound: real): (n: nat)
    ensures n <= |s|
  {
    if |s| == 0 then 0
    else CountAbove(s[..|s| - 1], bound) + (if s[|s| - 1] > bound then 1 else 0)
  }

  lemma {:induction false} CountAbovePrefixStep(s: seq<real>, bound: real, i: nat)
    requires i < |s|
    ensures CountAbove(s[..i + 1], bound) == CountAbove(s[..i], bound) + (if s[i] > bound then 1 else 0)
  {
    assert s[..i + 1][..i] == s[..i];
  }

  /** A real vector of `n` zeros. */
  function Zeros(n: nat): (z: seq<real>)
    ensures |z| == n && forall k :: 0 <= k < n ==> z[k] == 0.0
  {
    seq(n, k => 0.0)
  }

  /** Component-wise `(1 - alpha) * a + alpha * b`, the exponential moving average. */
  function Blend(a: seq<real>, b: seq<real>, alpha: real): (r: seq<real>)
    requires |a| == |b|
    ensures |r| == |a|
    ensures alpha == 0.0 ==> r == a
    ensures alpha == 1.0 ==> r == b
    ensures a == b ==> r == a
  {
    var r := seq(|a|, k requires 0 <= k < |a| => (1.0 - alpha) * a[k] + alpha * b[k]);
    assert alpha == 0.0 ==> forall k :: 0 <= k < |a| ==> r[k] == a[k];
    assert alpha == 1.0 ==> forall k :: 0 <= k < |a| ==> r[k] == b[k];
    assert a == b ==> forall k :: 0 <= k < |a| ==> r[k] == a[k];
    r
  }

  lemma MulNonneg(a: real, b: real)
    requires a >= 0.0 && b >= 0.0
    ensures a * b >= 0.0
  {
  }

  lemma MulPos(a: real, b: real)
    requires a > 0.0 && b > 0.0
    ensures a * b > 0.0
  {
  }

  lemma MulCancel(a: real, b: real, n: real)
    requires n > 0.0 && a * n == b * n
    ensures a == b
  {
    if a < b {
      MulPos(b - a, n);
    } else if a > b {
      MulPos(a - b, n);
    }
  }

  /** A positive quotient of positive reals. */
  lemma Quotient(a: real, b: real)
    requires a > 0.0 && b > 0.0
    ensures a / b > 0.0
  {
  }

  /** Dividing by a positive count keeps a strict order. */
  lemma DivideStrict(a: real, b: real, n: real)
    requires n > 0.0 && a < b
    ensures a / n < b / n
  {
    var qa := a / n;
    var qb := b / n;
    assert qa * n == a && qb * n == b;
    if qa >= qb {
      MulNonneg(qa - qb, n);
    }
  }

  /** A part over a positive whole is a fraction in [0, 1] that multiplies back to the part. */
  lemma FractionInUnit(a: real, t: real)
    requires 0.0 <= a <= t && t > 0.0
    ensures 0.0 <= a / t <= 1.0 && (a / t) * t == a
  {
    var q := a / t;
    assert q * t == a;
    if q > 1.0 {
      MulPos(q - 1.0, t);
    } else if q < 0.0 {
      MulPos(-q, t);
    }
  }

  /** Equal dividends over equal divisors give equal quotients. */
  lemma QuotientCongruent(a: real, b: real, n: real, m: real)
    requires a == b && n == m && n > 0.0
    ensures a / n == b / m
  {
  }

  /** Scaling a dividend by f scales the quotient by f. */
  lemma QuotientScales(t: real, n: real, f: real)
    requires n > 0.0
    ensures (t * f) / n == (t / n) * f
  {
  }

  lemma SquareNonneg(x: real)
    ensures x * x >= 0.0
  {
    if x < 0.0 {
      MulPos(-x, -x);
    } else if x > 0.0 {
      MulPos(x, x);
    }
  }

  /** A product, kept behind a function so that squares reuse the lemma below. */
  function Product(a: real, b: real): real
  {
    a * b
  }

  lemma ProductPos(a: real, b: real)
    requires a > 0.0 && b > 0.0
    ensures Product(a, b) > 0.0
  {
  }

  /** The square of a value: never negative, and positive away from zero. */
  function Square(x: real): (r: real)
    ensures r >= 0.0
    ensures x != 0.0 ==> r > 0.0
  {
    if x > 0.0 then
      ProductPos(x, x);
      Product(x, x)
    else if x < 0.0 then
      ProductPos(-x, -x);
      Product(-x, -x)
    else 0.0
  }

  /** A convex combination of two values in [lo, hi] stays in [lo, hi]. */
  lemma ConvexStaysInRange(x: real, y: real, alpha: real, lo: real, hi: real)
    requires 0.0 <= alpha <= 1.0
    requires lo <= x <= hi && lo <= y <= hi
    ensures lo <= (1.0 - alpha) * x + alpha * y <= hi
  {
    MulNonneg(1.0 - alpha, x - lo);
    MulNonneg(alpha, y - lo);
    MulNonneg(1.0 - alpha, hi - x);
    MulNonneg(alpha, hi - y);
    assert (1.0 - alpha) * x + alpha * y - lo == (1.0 - alpha) * (x - lo) + alpha * (y - lo);
    assert hi - ((1.0 - alpha) * x + alpha * y) == (1.0 - alpha) * (hi - x) + alpha * (hi - y);
  }
}
