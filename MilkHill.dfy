/**
 * The decorative circle layout of the geometry viewer
 * (generateMilkHillData in GeometryViewer.tsx): concentric rings of circles
 * numbered in push order, then randomly scattered circles until the layout
 * holds 409 circles.
 */
module MilkHill {
  import opened RealMath

  /** One drawn circle: centre, radius and sequential id. */
  datatype Circle = Circle(x: real, y: real, radius: real, id: int)

  /** A ring of circles: how many, on a circle of which radius, each of which size. */
  datatype CircleRing = CircleRing(count: int, radius: real, circleSize: real)

  /** The viewer's rings: the centre and five rings around it. */
  const ViewerRings: seq<CircleRing> := [
    CircleRing(1, 0.0, 20.0), CircleRing(6, 50.0, 15.0), CircleRing(12, 100.0, 12.0),
    CircleRing(18, 150.0, 10.0), CircleRing(24, 200.0, 8.0), CircleRing(30, 250.0, 6.0)]

  /** The number of circles the scatter phase fills up to. */
  const TargetTotal: int := 409

  /** How many circles a ring contributes: the centre for a count of 1, otherwise one per loop turn. */
  function RingSize(ring: CircleRing): nat
  {
    if ring.count == 1 then 1 else if 0 < ring.count then ring.count else 0
  }

  /** The i-th circle around a ring with more than one circle. */
  function RingCircle(m: MathLib, ring: CircleRing, i: int, id: int): Circle
    requires ring.count != 0
  {
    var (x, y) := PolarToCartesian(m, ring.radius, SpokeAngle(m, i, ring.count));
    Circle(x, y, ring.circleSize, id)
  }

  /** The first n circles around a ring, numbered from firstId. */
  function Spokes(m: MathLib, ring: CircleRing, n: nat, firstId: int): (cs: seq<Circle>)
    requires ring.count != 0
    ensures |cs| == n
    ensures forall i :: 0 <= i < n ==> cs[i] == RingCircle(m, ring, i, firstId + i)
  {
    if n == 0 then [] else Spokes(m, ring, n - 1, firstId) + [RingCircle(m, ring, n - 1, firstId + n - 1)]
  }

  /** The circles one ring contributes, numbered from firstId. */
  function RingCircles(m: MathLib, ring: CircleRing, firstId: int): (cs: seq<Circle>)
    ensures |cs| == RingSize(ring)
  {
    if ring.count == 1 then [Circle(0.0, 0.0, ring.circleSize, firstId)]
    else if ring.count == 0 then []
    else Spokes(m, ring, RingSize(ring), firstId)
  }

  /** How many circles the rings contribute together. */
  function CircleCount(rings: seq<CircleRing>): nat
  {
    if rings == [] then 0 else CircleCount(rings[..|rings| - 1]) + RingSize(rings[|rings| - 1])
  }

  /** The ring phase: every ring's circles in ring order, numbered in push order. */
  function RingPhase(m: MathLib, rings: seq<CircleRing>): seq<Circle>
  {
    if rings == [] then []
    else
      var init := RingPhase(m, rings[..|rings| - 1]);
      init + RingCircles(m, rings[|rings| - 1], |init|)
  }

  /** How many scatter circles follow n ring circles: 409 - n when positive, otherwise none. */
  function ScatterCount(n: int): nat
  {
    if 0 < TargetTotal - n then TargetTotal - n else 0
  }

  /**
   * A scattered circle drawn from three consecutive random values starting
   * at draw number d: its angle, its distance from the origin and its size.
   */
  function ScatterCircle(m: MathLib, random: nat -> real, d: nat, id: int): Circle
  {
    var angle := ScatterAngle(m, random(d));
    var distance := 300.0 + random(d + 1) * 200.0;
    var (x, y) := PolarToCartesian(m, distance, angle);
    Circle(x, y, 4.0 + random(d + 2) * 8.0, id)
  }

  /** The direction of a scattered circle for the random value u. */
  function ScatterAngle(m: MathLib, u: real): real
  {
    u * 2.0 * m.pi
  }

  /** The first n scattered circles, numbered from firstId; circle i uses draws 3i, 3i+1, 3i+2. */
  function Scatter(m: MathLib, random: nat -> real, n: nat, firstId: int): (cs: seq<Circle>)
    ensures |cs| == n
    ensures forall i :: 0 <= i < n ==> cs[i] == ScatterCircle(m, random, 3 * i, firstId + i)
  {
    if n == 0 then [] else Scatter(m, random, n - 1, firstId) + [ScatterCircle(m, random, 3 * (n - 1), firstId + n - 1)]
  }

  /** The whole layout: the ring phase, then the scatter phase up to 409 circles. */
  function Layout(m: MathLib, rings: seq<CircleRing>, random: nat -> real): seq<Circle>
  {
    var ringCircles := RingPhase(m, rings);
    ringCircles + Scatter(m, random, ScatterCount(|ringCircles|), |ringCircles|)
  }

  /**
   * Pushes the ring circles and then the scatter circles, numbering them with
   * a running id; Math.random is the stream `random`, whose n-th value is the
   * n-th call's result. The viewer passes ViewerRings.
   */
  method GenerateMilkHillData(m: MathLib, rings: seq<CircleRing>, random: nat -> real)
    returns (circles: seq<Circle>)
    ensures circles == Layout(m, rings, random)
  {
    circles := PushRings(m, rings);
    circles := PushScatter(m, random, circles);
  }

  /** The ring phase of the generator: ring after ring, ids counting up from 0. */
  method PushRings(m: MathLib, rings: seq<CircleRing>) returns (circles: seq<Circle>)
    ensures circles == RingPhase(m, rings)
  {
    circles := [];
    var r := 0;
    while r < |rings|
      invariant 0 <= r <= |rings|
      invariant circles == RingPhase(m, rings[..r])
    {
      circles := PushRing(m, rings[r], circles);
      RingPhaseStep(m, rings, r);
      r := r + 1;
    }
    assert rings[..r] == rings;
  }

  /** One ring's turn of the ring phase: its circles, ids continuing from |circles|. */
  method PushRing(m: MathLib, ring: CircleRing, circles: seq<Circle>) returns (out: seq<Circle>)
    ensures out == circles + RingCircles(m, ring, |circles|)
  {
    out := circles;
    var id := |circles|;
    if ring.count == 1 {
      out := out + [Circle(0.0, 0.0, ring.circleSize, id)];
    } else {
      var i := 0;
      while i < ring.count
        invariant 0 <= i <= RingSize(ring) && id == |circles| + i
        invariant i == 0 ==> out == circles
        invariant 0 < i ==> out == circles + Spokes(m, ring, i, |circles|)
      {
        var angle := SpokeAngle(m, i, ring.count);
        var (x, y) := PolarToCartesian(m, ring.radius, angle);
        assert Circle(x, y, ring.circleSize, id) == RingCircle(m, ring, i, |circles| + i);
        out := out + [Circle(x, y, ring.circleSize, id)];
        id := id + 1;
        i := i + 1;
      }
    }
  }

  /**
   * The scatter phase of the generator: while fewer than 409 circles exist,
   * three random draws place one more circle, numbered after the others.
   */
  method PushScatter(m: MathLib, random: nat -> real, ringCircles: seq<Circle>) returns (circles: seq<Circle>)
    ensures circles == ringCircles + Scatter(m, random, ScatterCount(|ringCircles|), |ringCircles|)
  {
    circles := ringCircles;
    var id := |circles|;
    var remaining := TargetTotal - |circles|;
    var drawn: nat := 0;
    var i := 0;
    while i < remaining
      invariant 0 <= i <= ScatterCount(|ringCircles|)
      invariant id == |circles| && drawn == 3 * i
      invariant circles == ringCircles + Scatter(m, random, i, |ringCircles|)
    {
      var angle := ScatterAngle(m, random(drawn));
      drawn := drawn + 1;
      var distance := 300.0 + random(drawn) * 200.0;
      drawn := drawn + 1;
      var (x, y) := PolarToCartesian(m, distance, angle);
      var size := 4.0 + random(drawn) * 8.0;
      drawn := drawn + 1;
      assert Circle(x, y, size, id) == ScatterCircle(m, random, 3 * i, |ringCircles| + i);
      assert Scatter(m, random, i + 1, |ringCircles|) == Scatter(m, random, i, |ringCircles|) + [Circle(x, y, size, id)];
      circles := circles + [Circle(x, y, size, id)];
      id := id + 1;
      i := i + 1;
    }
    assert i == ScatterCount(|ringCircles|);
  }

  /** Adding one more ring appends that ring's circles, numbered after the earlier ones. */
  lemma RingPhaseStep(m: MathLib, rings: seq<CircleRing>, r: nat)
    requires r < |rings|
    ensures RingPhase(m, rings[..r + 1]) == RingPhase(m, rings[..r]) + RingCircles(m, rings[r], |RingPhase(m, rings[..r])|)
  {
    assert rings[..r + 1][..r] == rings[..r];
  }

  /** The layout ends with max(409, number of ring circles) circles. */
  lemma LayoutLength(m: MathLib, rings: seq<CircleRing>, random: nat -> real)
    ensures var n := |RingPhase(m, rings)|;
      |Layout(m, rings, random)| == if n < TargetTotal then TargetTotal else n
  {
  }

  /** Ring-phase circles carry ids 0, 1, 2, ... in push order. */
  lemma {:induction false} RingPhaseIds(m: MathLib, rings: seq<CircleRing>, k: nat)
    requires k < |RingPhase(m, rings)|
    ensures RingPhase(m, rings)[k].id == k
  {
    var init := rings[..|rings| - 1];
    var n := |RingPhase(m, init)|;
    if k < n {
      RingPhaseIds(m, init, k);
    } else {
      var ring := rings[|rings| - 1];
      assert RingPhase(m, rings)[k] == RingCircles(m, ring, n)[k - n];
    }
  }

  /** Every circle's id is its index in the layout, so all ids are distinct. */
  lemma LayoutIds(m: MathLib, rings: seq<CircleRing>, random: nat -> real, k: nat)
    requires k < |Layout(m, rings, random)|
    ensures Layout(m, rings, random)[k].id == k
  {
    if k < |RingPhase(m, rings)| {
      RingPhaseIds(m, rings, k);
    }
  }

  /**
   * Circle i of ring r sits right after the earlier rings' circles: the
   * centre circle for a count of 1, otherwise at angle 2*pi*i/count on the
   * ring's circle; either way its radius is the ring's circle size.
   */
  lemma {:induction false} RingPhaseAt(m: MathLib, rings: seq<CircleRing>, r: nat, i: nat)
    requires r < |rings| && i < RingSize(rings[r])
    ensures var k := |RingPhase(m, rings[..r])|;
      && k + i < |RingPhase(m, rings)|
      && RingPhase(m, rings)[k + i] == (if rings[r].count == 1 then Circle(0.0, 0.0, rings[r].circleSize, k)
                                        else RingCircle(m, rings[r], i, k + i))
      && RingPhase(m, rings)[k + i].radius == rings[r].circleSize
  {
    var init := rings[..|rings| - 1];
    if r == |rings| - 1 {
      assert rings[..r] == init;
    } else {
      assert init[..r] == rings[..r];
      RingPhaseAt(m, init, r, i);
    }
  }

  /** The ring phase holds exactly as many circles as the rings' sizes add up to. */
  lemma {:induction false} RingPhaseLength(m: MathLib, rings: seq<CircleRing>)
    ensures |RingPhase(m, rings)| == CircleCount(rings)
  {
    if rings != [] {
      RingPhaseLength(m, rings[..|rings| - 1]);
    }
  }

  /** The viewer's rings give 1 + 6 + 12 + 18 + 24 + 30 = 91 circles, so 318 are scattered and 409 drawn. */
  lemma ViewerCounts(m: MathLib, random: nat -> real)
    ensures |RingPhase(m, ViewerRings)| == 91
    ensures ScatterCount(91) == 318
    ensures |Layout(m, ViewerRings, random)| == TargetTotal
  {
    RingPhaseLength(m, ViewerRings);
    var rs := ViewerRings;
    assert CircleCount(rs[..1]) == 1 by { assert rs[..1][..0] == []; }
    assert CircleCount(rs[..2]) == 7 by { assert rs[..2][..1] == rs[..1]; }
    assert CircleCount(rs[..3]) == 19 by { assert rs[..3][..2] == rs[..2]; }
    assert CircleCount(rs[..4]) == 37 by { assert rs[..4][..3] == rs[..3]; }
    assert CircleCount(rs[..5]) == 61 by { assert rs[..5][..4] == rs[..4]; }
    assert rs[..5] == rs[..|rs| - 1];
  }

  /** The viewer's first circle is the centre circle: at the origin, radius 20, id 0. */
  lemma FirstCircle(m: MathLib, random: nat -> real)
    ensures |Layout(m, ViewerRings, random)| > 0
    ensures Layout(m, ViewerRings, random)[0] == Circle(0.0, 0.0, 20.0, 0)
  {
    ViewerCounts(m, random);
    RingPhaseAt(m, ViewerRings, 0, 0);
    assert ViewerRings[..0] == [];
  }

  /**
   * The band the scatter phase aims at: centre at distance in [300, 500) from
   * the origin (stated on squares) and radius in [4, 12).
   */
  predicate InScatterBand(c: Circle)
  {
    && 300.0 * 300.0 <= c.x * c.x + c.y * c.y < 500.0 * 500.0
    && 4.0 <= c.radius < 12.0
  }

  /** A circle drawn from random values in [0, 1) lies in the scatter band. */
  lemma ScatterCircleBounds(m: MathLib, random: nat -> real, d: nat, id: int)
    requires Valid(m)
    requires 0.0 <= random(d + 1) < 1.0 && 0.0 <= random(d + 2) < 1.0
    ensures InScatterBand(ScatterCircle(m, random, d, id))
  {
    var angle := ScatterAngle(m, random(d));
    var distance := 300.0 + random(d + 1) * 200.0;
    assert 300.0 <= distance < 500.0;
    PolarDistance(m, distance, angle);
    SquareIncreasing(distance, 500.0);
    if 300.0 < distance {
      SquareIncreasing(300.0, distance);
    }
  }

  /** Scatter circle i follows the ring circles and uses draws 3i, 3i+1 and 3i+2. */
  lemma ScatterAt(m: MathLib, rings: seq<CircleRing>, random: nat -> real, i: nat)
    requires i < ScatterCount(|RingPhase(m, rings)|)
    ensures var n := |RingPhase(m, rings)|;
      n + i < |Layout(m, rings, random)| && Layout(m, rings, random)[n + i] == ScatterCircle(m, random, 3 * i, n + i)
  {
  }

  /** With random values in [0, 1), every circle of the scatter phase lies in the scatter band. */
  lemma ScatterBounds(m: MathLib, rings: seq<CircleRing>, random: nat -> real, k: nat)
    requires Valid(m)
    requires forall d :: 0.0 <= random(d) < 1.0
    requires |RingPhase(m, rings)| <= k < |Layout(m, rings, random)|
    ensures InScatterBand(Layout(m, rings, random)[k])
  {
    var n := |RingPhase(m, rings)|;
    var i := k - n;
    ScatterAt(m, rings, random, i);
    ScatterCircleBounds(m, random, 3 * i, n + i);
  }
}
