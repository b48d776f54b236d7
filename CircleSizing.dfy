/**
 * The responsive circle sizing of the geometry viewer (GeometryViewer.tsx):
 * a minimum radius derived from the drawing area, and the radius each circle
 * is drawn with, which depends on the view mode and is capped at four times
 * that minimum.
 */
module CircleSizing {

  /** The viewer's three view modes. */
  datatype ViewMode = Array | Mathematical | Artistic

  /** The smallest radius the picture uses: 2, or 1/200 of the shorter side when that is larger. */
  function MinRadius(width: real, height: real): (r: real)
    ensures 2.0 <= r
    ensures (if width < height then width else height) / 200.0 <= r
    ensures r == 2.0 || r == (if width < height then width else height) / 200.0
  {
    var shorter := if width < height then width else height;
    if 2.0 < shorter / 200.0 then shorter / 200.0 else 2.0
  }

  /**
   * The radius a circle of model radius `radius` is drawn with: the model
   * radius in artistic mode, otherwise 0.6 of it but at least the minimum;
   * in every mode at most four times the minimum.
   */
  function DrawnRadius(mode: ViewMode, width: real, height: real, radius: real): (r: real)
    ensures r <= 4.0 * MinRadius(width, height)
    ensures mode != Artistic ==> MinRadius(width, height) <= r
    ensures mode == Artistic ==> r <= radius
  {
    var minRadius := MinRadius(width, height);
    var baseRadius := if mode == Artistic then radius
                      else if minRadius < radius * 0.6 then radius * 0.6 else minRadius;
    if baseRadius < minRadius * 4.0 then baseRadius else minRadius * 4.0
  }

  /**
   * The radius of the centre-point indicator, 1.5 times the minimum: at least
   * 3, above the floor of the circles' sizes and below their cap.
   */
  function IndicatorRadius(width: real, height: real): (r: real)
    ensures 3.0 <= r
    ensures MinRadius(width, height) < r < 4.0 * MinRadius(width, height)
  {
    MinRadius(width, height) * 1.5
  }

  /** Outside artistic mode every circle is drawn with a radius of at least 2, so none vanishes. */
  lemma VisibleOutsideArtistic(mode: ViewMode, width: real, height: real, radius: real)
    requires mode != Artistic
    ensures 2.0 <= DrawnRadius(mode, width, height, radius)
  {
  }

  /** Within the clamp's range the model radius is kept: as is in artistic mode, scaled by 0.6 otherwise. */
  lemma UnclampedRadius(mode: ViewMode, width: real, height: real, radius: real)
    ensures var minRadius := MinRadius(width, height);
      mode == Artistic && radius <= 4.0 * minRadius ==> DrawnRadius(mode, width, height, radius) == radius
    ensures var minRadius := MinRadius(width, height);
      mode != Artistic && minRadius <= 0.6 * radius <= 4.0 * minRadius ==>
        DrawnRadius(mode, width, height, radius) == 0.6 * radius
  {
  }

  /** Beyond the range the bounds are attained: large circles are drawn at the cap, small ones at the minimum. */
  lemma ClampedRadius(mode: ViewMode, width: real, height: real, radius: real)
    ensures var minRadius := MinRadius(width, height);
      (if mode == Artistic then radius else 0.6 * radius) >= 4.0 * minRadius ==>
        DrawnRadius(mode, width, height, radius) == 4.0 * minRadius
    ensures var minRadius := MinRadius(width, height);
      mode != Artistic && 0.6 * radius <= minRadius ==> DrawnRadius(mode, width, height, radius) == minRadius
  {
  }

  /** A larger model circle is never drawn smaller: the sizing keeps the circles' order. */
  lemma DrawnRadiusMonotone(mode: ViewMode, width: real, height: real, radius: real, radius': real)
    requires radius <= radius'
    ensures DrawnRadius(mode, width, height, radius) <= DrawnRadius(mode, width, height, radius')
  {
  }

  /**
   * On a drawing area whose shorter side is at most 400 the minimum is 2 and
   * the cap 8: the centre circle (radius 20) is drawn at 8 in every mode.
   */
  lemma SmallScreenCentre(mode: ViewMode, width: real, height: real)
    requires width <= 400.0 || height <= 400.0
    ensures MinRadius(width, height) == 2.0
    ensures DrawnRadius(mode, width, height, 20.0) == 8.0
  {
  }
}
