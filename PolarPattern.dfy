/**
 * The polar beam pattern (the first drawing effect of
 * PhasedArraySimulator.tsx): the array factor sampled every 2 degrees over a
 * full turn, normalised by the element count and scaled to the plot radius,
 * as points around the centre of a 400 x 400 plot.
 */
module PolarPattern {
  import opened RealMath
  import opened ArrayGeometry
  import opened Evaluator

  const PlotWidth: real := 400.0
  const PlotHeight: real := 400.0
  const PlotRadius: real := 180.0
  const CenterX: real := PlotWidth / 2.0
  const CenterY: real := PlotHeight / 2.0

  /** The sweep steps by 2 degrees from 0 while below 360, so it takes 180 samples. */
  const SweepSamples: nat := 180

  /** The sweep angle in radians. */
  function SweepTheta(m: MathLib, angle: int): real
  {
    (angle as real * m.pi) / 180.0
  }

  /** Distance of a pattern point from the centre: AF(theta) / N * radius. */
  function NormalizedGain(m: MathLib, p: Params, es: seq<Element>, angle: int): real
    requires |es| > 0
  {
    (ArrayFactor(m, p, es, SweepTheta(m, angle), 0.0) / |es| as real) * PlotRadius
  }

  /** The point at distance d from the centre in direction theta. */
  function RayPoint(m: MathLib, d: real, theta: real): (real, real)
  {
    var (dx, dy) := PolarToCartesian(m, d, theta);
    (CenterX + dx, CenterY + dy)
  }

  /** The pattern point drawn for a sweep angle given in degrees. */
  function PolarPoint(m: MathLib, p: Params, es: seq<Element>, angle: int): (real, real)
    requires |es| > 0
  {
    RayPoint(m, NormalizedGain(m, p, es, angle), SweepTheta(m, angle))
  }

  /**
   * Samples the pattern at 0, 2, ..., 358 degrees (phi = 0); point a of the
   * result belongs to the angle 2 * a degrees.
   */
  method PolarSweep(m: MathLib, p: Params, es: seq<Element>) returns (points: seq<(real, real)>)
    requires |es| > 0
    ensures |points| == SweepSamples
    ensures forall a :: 0 <= a < |points| ==> points[a] == PolarPoint(m, p, es, 2 * a)
  {
    points := [];
    var angle := 0;
    while angle < 360
      invariant 0 <= angle <= 360 && angle % 2 == 0
      invariant |points| == angle / 2
      invariant forall a :: 0 <= a < |points| ==> points[a] == PolarPoint(m, p, es, 2 * a)
    {
      var theta := (angle as real * m.pi) / 180.0;
      assert theta == SweepTheta(m, angle);
      var arrayFactor := CalculateArrayFactor(m, p, es, theta, 0.0);
      var normalizedAF := (arrayFactor / |es| as real) * PlotRadius;
      assert normalizedAF == NormalizedGain(m, p, es, angle);
      var (dx, dy) := PolarToCartesian(m, normalizedAF, theta);
      var x := CenterX + dx;
      var y := CenterY + dy;
      assert (x, y) == RayPoint(m, normalizedAF, theta);
      points := points + [(x, y)];
      angle := angle + 2;
    }
  }

  /**
   * Each pattern point lies on the ray at its sweep angle, at distance
   * AF(theta) / N * radius from the centre, which is never negative.
   */
  lemma PolarPointOnRay(m: MathLib, p: Params, es: seq<Element>, angle: int)
    requires Valid(m) && |es| > 0
    ensures var (x, y) := PolarPoint(m, p, es, angle);
      var d := NormalizedGain(m, p, es, angle);
      && 0.0 <= d
      && (x - CenterX) * (x - CenterX) + (y - CenterY) * (y - CenterY) == d * d
  {
    var theta := SweepTheta(m, angle);
    var d := NormalizedGain(m, p, es, angle);
    ArrayFactorNonNegative(m, p, es, theta, 0.0);
    var af := ArrayFactor(m, p, es, theta, 0.0);
    var n := |es| as real;
    assert 0.0 <= af / n;
    assert 0.0 <= d;
    PolarDistance(m, d, theta);
  }

  /**
   * At frequency 0 every element of a unit-weight array is in phase in every
   * direction, so the pattern is the full plot circle: every gain is 180.
   */
  lemma FullCircleAtZeroFrequency(m: MathLib, p: Params, es: seq<Element>, angle: int)
    requires Valid(m) && p.frequency == 0.0 && |es| > 0
    requires forall i :: 0 <= i < |es| ==> es[i].amplitude == 1.0 && es[i].phase == 0.0
    ensures NormalizedGain(m, p, es, angle) == PlotRadius
  {
    OmnidirectionalAtZeroFrequency(m, p, es, SweepTheta(m, angle), 0.0);
    var n := |es| as real;
    assert n / n == 1.0;
  }
}
