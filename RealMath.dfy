/**
 * The numeric library the components call (Math.sin, Math.cos, Math.sqrt,
 * Math.PI), modelled over exact reals. The functions are left uninterpreted:
 * they are values handed to every operation, and `Valid` lists the few laws
 * of the true functions that the proofs rely on.
 */
module RealMath {

  datatype MathLib = MathLib(sin: real -> real, cos: real -> real, sqrt: real -> real, pi: real)

  /** The laws of sine, cosine and square root used by the proofs. */
  ghost predicate Valid(m: MathLib)
  {
    && (forall x :: 0.0 <= x ==> 0.0 <= m.sqrt(x))
    && (forall x :: 0.0 <= x ==> m.sqrt(x) * m.sqrt(x) == x)
    && m.sin(0.0) == 0.0
    && m.cos(0.0) == 1.0
    && (forall t :: m.sin(t) * m.sin(t) + m.cos(t) * m.cos(t) == 1.0)
  }

  /** Angle, in radians, of the i-th of n points spaced evenly around a circle: (i / n) * 2 * pi. */
  function SpokeAngle(m: MathLib, i: int, n: int): real
    requires n != 0
  {
    (i as real / n as real) * 2.0 * m.pi
  }

  /** Cartesian coordinates of the point at distance r in direction t. */
  function PolarToCartesian(m: MathLib, r: real, t: real): (real, real)
  {
    (r * m.cos(t), r * m.sin(t))
  }

  /** The square root of a perfect square of a non-negative number is that number. */
  lemma SqrtOfSquare(m: MathLib, a: real)
    requires Valid(m)
    requires 0.0 <= a
    ensures m.sqrt(a * a) == a
  {
    var s := m.sqrt(a * a);
    assert 0.0 <= s && s * s == a * a;
    if s < a {
      SquareIncreasing(s, a);
    } else if a < s {
      SquareIncreasing(a, s);
    }
  }

  /** The square root of 0 is 0. */
  lemma SqrtZero(m: MathLib)
    requires Valid(m)
    ensures m.sqrt(0.0) == 0.0
  {
    var s := m.sqrt(0.0);
    assert 0.0 <= s && s * s == 0.0;
    if 0.0 < s {
      SquareIncreasing(0.0, s);
    }
  }

  lemma SquareIncreasing(x: real, y: real)
    requires 0.0 <= x < y
    ensures x * x < y * y
  {
    var xx, xy, yy := x * x, x * y, y * y;
    assert xx <= xy;
    assert xy < yy;
  }

  /** The point at distance d in direction t lies at squared distance d^2 from the origin. */
  lemma PolarDistance(m: MathLib, d: real, t: real)
    requires Valid(m)
    ensures var (x, y) := PolarToCartesian(m, d, t); x * x + y * y == d * d
  {
    var c, s := m.cos(t), m.sin(t);
    assert s * s + c * c == 1.0;
    calc {
      (d * c) * (d * c) + (d * s) * (d * s);
      d * d * (c * c + s * s);
      d * d;
    }
  }
}
