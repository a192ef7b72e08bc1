/** Real-number stand-ins for the floating-point library the arm software calls.

    The transcendental functions are not computable in Dafny; they are carried as an
    `Oracle` value that every operation receives, and each proof states, as a
    precondition, only the law of that oracle it relies on. */
module Numerics {

  /** `math.sqrt`, `math.cos`, `math.sin`, `math.acos` and `math.atan2`. */
  datatype Oracle = Oracle(
    sqrt: real -> real,
    cos: real -> real,
    sin: real -> real,
    acos: real -> real,
    atan2: (real, real) -> real)

  /** `math.pi`. */
  const Pi: real := 3.141592653589793

  /** `math.degrees`. */
  function Degrees(rad: real): real {
    rad * 180.0 / Pi
  }

  /** `math.radians`. */
  function Radians(deg: real): real {
    deg * Pi / 180.0
  }

  function Abs(x: real): real {
    if x < 0.0 then -x else x
  }

  function Min(a: real, b: real): real {
    if a <= b then a else b
  }

  function Max(a: real, b: real): real {
    if a >= b then a else b
  }

  /** Python's `max(min(v, hi), lo)`. */
  function Clamp(v: real, lo: real, hi: real): (r: real)
    requires lo <= hi
    ensures lo <= r <= hi
    ensures lo <= v <= hi ==> r == v
    ensures v < lo ==> r == lo
    ensures v > hi ==> r == hi
  {
    Max(Min(v, hi), lo)
  }

  /** Python's `int(x)` on a float: truncation toward zero. */
  function Trunc(x: real): (n: int)
    ensures Abs(n as real) <= Abs(x) < Abs(n as real) + 1.0
    ensures x >= 0.0 ==> n == x.Floor
    ensures (n as real) * x >= 0.0
  {
    if x >= 0.0 then x.Floor else -((-x).Floor)
  }

  // ---- the laws an oracle may be asked to obey ----

  /** `sqrt(d)` is non-negative and, for `d >= 0`, squares back to `d`, at one argument.
      (Python raises for a negative argument; the model never applies `sqrt` there, so
      the value the law fixes for it is never used.) */
  ghost predicate ExactSqrtAt(m: Oracle, d: real) {
    m.sqrt(d) >= 0.0 && (d >= 0.0 ==> m.sqrt(d) * m.sqrt(d) == d)
  }

  ghost predicate ExactSqrt(m: Oracle) {
    forall d :: ExactSqrtAt(m, d)
  }

  /** cos² + sin² = 1, cos is even and sin is odd, at one angle. */
  ghost predicate UnitCircleAt(m: Oracle, a: real) {
    && m.cos(a) * m.cos(a) + m.sin(a) * m.sin(a) == 1.0
    && m.cos(-a) == m.cos(a)
    && m.sin(-a) == -m.sin(a)
  }

  /** `acos` maps [-1, 1] into [0, pi]. */
  ghost predicate AcosRange(m: Oracle) {
    forall u :: -1.0 <= u <= 1.0 ==> 0.0 <= m.acos(u) <= Pi
  }

  /** `cos` undoes `acos` on [-1, 1]. */
  ghost predicate AcosInverse(m: Oracle) {
    forall u :: -1.0 <= u <= 1.0 ==> m.cos(m.acos(u)) == u
  }

  /** `atan2` takes its values in [-pi, pi]. */
  ghost predicate Atan2Range(m: Oracle) {
    forall y, x :: -Pi <= m.atan2(y, x) <= Pi
  }

  /** The product of two non-negative reals is non-negative. Nonlinear steps in this
      model go through small lemmas like this one, called with explicit arguments. */
  lemma MulNonNeg(a: real, b: real)
    requires 0.0 <= a && 0.0 <= b
    ensures 0.0 <= a * b
  {
  }

  lemma SquareNonNeg(a: real)
    ensures 0.0 <= a * a
  {
    if a < 0.0 {
      MulPos(-a, -a);
    }
  }

  lemma MulPos(a: real, b: real)
    requires 0.0 < a && 0.0 < b
    ensures 0.0 < a * b
  {
  }

  /** Squares order non-negative reals: the step every monotonicity proof about
      `sqrt` needs. */
  lemma SquareMonotone(a: real, b: real)
    requires 0.0 <= a && 0.0 <= b
    requires a * a <= b * b
    ensures a <= b
  {
    if a + b > 0.0 {
      assert (a - b) * (a + b) == a * a - b * b;
      assert (a - b) * (a + b) <= 0.0;
    }
  }

  lemma SumSquaresNonNeg(u: real, v: real)
    ensures u * u + v * v >= 0.0
  {
    SquareNonNeg(u);
    SquareNonNeg(v);
  }

  /** A sum of two squares vanishes only when both numbers do. */
  lemma SumSquaresPos(u: real, v: real)
    requires u != 0.0 || v != 0.0
    ensures u * u + v * v > 0.0
  {
    SquareNonNeg(u);
    SquareNonNeg(v);
    if u != 0.0 {
      if u > 0.0 { MulPos(u, u); } else { MulPos(-u, -u); }
    } else {
      if v > 0.0 { MulPos(v, v); } else { MulPos(-v, -v); }
    }
  }

  /** Two squares compare as the absolute values do. */
  lemma SquareWithin(u: real, w: real)
    requires 0.0 <= w
    ensures u * u <= w * w <==> -w <= u <= w
  {
    var a := Abs(u);
    assert a * a == u * u;
    if -w <= u <= w {
      MulNonNeg(w - a, w + a);
      assert (w - a) * (w + a) == w * w - a * a;
    }
    if u * u <= w * w {
      SquareMonotone(a, w);
    }
  }

  /** Dividing by a positive number keeps an inequality against `k`. */
  lemma DivAtMost(a: real, b: real, k: real)
    requires b > 0.0
    ensures a / b <= k <==> a <= k * b
  {
    var q := a / b;
    assert q * b == a;
    if q <= k {
      MulNonNeg(k - q, b);
    } else {
      MulPos(q - k, b);
    }
  }

  lemma DivAtLeast(a: real, b: real, k: real)
    requires b > 0.0
    ensures a / b >= k <==> a >= k * b
  {
    var q := a / b;
    assert q * b == a;
    if q >= k {
      MulNonNeg(q - k, b);
    } else {
      MulPos(k - q, b);
    }
  }

  /** One step less is one less in units of the step. */
  lemma DivSubOne(d: real, step: real)
    requires step > 0.0
    ensures (d - step) / step == d / step - 1.0
  {
    var a := (d - step) / step;
    var b := d / step - 1.0;
    assert a * step == d - step;
    assert (d / step) * step == d;
    assert b * step == (d / step) * step - 1.0 * step;
    MulCancel(a, b, step);
  }

  /** A positive factor cancels. */
  lemma MulCancel(a: real, b: real, s: real)
    requires s > 0.0 && a * s == b * s
    ensures a == b
  {
    if a > b {
      MulPos(a - b, s);
    } else if a < b {
      MulPos(b - a, s);
    }
  }

  /** `u + t * (v - u)`: the value a fraction `t` of the way from `u` to `v`. */
  function Lerp(u: real, v: real, t: real): real {
    u + t * (v - u)
  }

  lemma LerpAbove(u: real, v: real, t: real)
    requires 0.0 <= t <= 1.0
    ensures Min(u, v) <= Lerp(u, v, t)
  {
    if u <= v {
      MulNonNeg(t, v - u);
    } else {
      MulNonNeg(1.0 - t, u - v);
      assert Lerp(u, v, t) == v + (1.0 - t) * (u - v);
    }
  }

  lemma LerpBelow(u: real, v: real, t: real)
    requires 0.0 <= t <= 1.0
    ensures Lerp(u, v, t) <= Max(u, v)
  {
    if u <= v {
      MulNonNeg(1.0 - t, v - u);
      assert Lerp(u, v, t) == v - (1.0 - t) * (v - u);
    } else {
      MulNonNeg(t, u - v);
      assert Lerp(u, v, t) == u - t * (u - v);
    }
  }

  // ---- sums, means and maxima of sequences (numpy's sum, mean and max) ----

  function Sum(s: seq<real>): real {
    if s == [] then 0.0 else Sum(s[..|s| - 1]) + s[|s| - 1]
  }

  /** `np.mean`; numpy returns nan for an empty array, so callers guard emptiness. */
  function Mean(s: seq<real>): real
    requires |s| > 0
  {
    Sum(s) / (|s| as real)
  }

  /** `np.max`; numpy raises ValueError on an empty array. */
  function MaxOf(s: seq<real>): (r: real)
    requires |s| > 0
    ensures r in s
    ensures forall i :: 0 <= i < |s| ==> s[i] <= r
  {
    if |s| == 1 then s[0] else Max(MaxOf(s[..|s| - 1]), s[|s| - 1])
  }

  /** `min` over a non-empty sequence. */
  function MinOf(s: seq<real>): (r: real)
    requires |s| > 0
    ensures r in s
    ensures forall i :: 0 <= i < |s| ==> r <= s[i]
  {
    if |s| == 1 then s[0] else Min(MinOf(s[..|s| - 1]), s[|s| - 1])
  }

  lemma {:induction false} SumNonNeg(s: seq<real>)
    requires forall i :: 0 <= i < |s| ==> s[i] >= 0.0
    ensures Sum(s) >= 0.0
  {
    if s != [] {
      SumNonNeg(s[..|s| - 1]);
    }
  }

  lemma {:induction false} SumAtMost(s: seq<real>, bound: real)
    requires forall i :: 0 <= i < |s| ==> s[i] <= bound
    ensures Sum(s) <= (|s| as real) * bound
  {
    if s != [] {
      SumAtMost(s[..|s| - 1], bound);
    }
  }

  lemma {:induction false} SumOfZeros(s: seq<real>)
    requires forall i :: 0 <= i < |s| ==> s[i] == 0.0
    ensures Sum(s) == 0.0
  {
    if s != [] {
      SumOfZeros(s[..|s| - 1]);
    }
  }

  /** The mean of non-negative values lies between 0 and their maximum. */
  lemma MeanBetween(s: seq<real>)
    requires |s| > 0
    requires forall i :: 0 <= i < |s| ==> s[i] >= 0.0
    ensures 0.0 <= Mean(s) <= MaxOf(s)
  {
    MeanAtMost(s, MaxOf(s));
  }

  /** The mean of values in `[0, top]` lies in `[0, top]`. */
  lemma MeanAtMost(s: seq<real>, top: real)
    requires |s| > 0
    requires forall i :: 0 <= i < |s| ==> 0.0 <= s[i] <= top
    ensures 0.0 <= Mean(s) <= top
  {
    SumNonNeg(s);
    SumAtMost(s, top);
    DivBounds(Sum(s), |s| as real, top);
  }

  lemma DivBounds(a: real, n: real, bound: real)
    requires n > 0.0 && 0.0 <= a <= n * bound
    ensures 0.0 <= a / n <= bound
  {
    assert a / n * n == a;
  }
}
