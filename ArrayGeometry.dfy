/**
 * The element layout of the phased-array simulator
 * (generateArrayElements in PhasedArraySimulator.tsx): concentric rings of
 * radiating elements, emitted ring by ring.
 */
module ArrayGeometry {
  import opened RealMath

  /** One radiating point of the array. */
  datatype Element = Element(x: real, y: real, amplitude: real, phase: real)

  /** A ring specification: how many elements, on a circle of which radius. */
  datatype Ring = Ring(count: int, radius: real)

  /** The simplified Milk Hill layout the simulator uses. */
  const SimulatorRings: seq<Ring> :=
    [Ring(1, 0.0), Ring(6, 0.5), Ring(12, 1.0), Ring(18, 1.5), Ring(24, 2.0)]

  /** How many elements a ring contributes: the origin for a count of 1, otherwise one per loop turn. */
  function RingSize(ring: Ring): nat
  {
    if ring.count == 1 then 1 else if 0 < ring.count then ring.count else 0
  }

  function TotalSize(rings: seq<Ring>): nat
  {
    if rings == [] then 0 else TotalSize(rings[..|rings| - 1]) + RingSize(rings[|rings| - 1])
  }

  /** The i-th element of a ring with more than one element. */
  function SpokeElement(m: MathLib, ring: Ring, i: int): Element
    requires ring.count != 0
  {
    var (x, y) := PolarToCartesian(m, ring.radius, SpokeAngle(m, i, ring.count));
    Element(x, y, 1.0, 0.0)
  }

  /** The first n spokes of a ring, in emission order. */
  function Spokes(m: MathLib, ring: Ring, n: nat): (es: seq<Element>)
    requires ring.count != 0
    ensures |es| == n
    ensures forall i :: 0 <= i < n ==> es[i] == SpokeElement(m, ring, i)
  {
    if n == 0 then [] else Spokes(m, ring, n - 1) + [SpokeElement(m, ring, n - 1)]
  }

  /** The elements one ring contributes, in emission order. */
  function RingElements(m: MathLib, ring: Ring): (es: seq<Element>)
    ensures |es| == RingSize(ring)
  {
    if ring.count == 1 then [Element(0.0, 0.0, 1.0, 0.0)]
    else if ring.count == 0 then []
    else Spokes(m, ring, RingSize(ring))
  }

  /** The concatenation of the rings' elements, in ring order. */
  function Layout(m: MathLib, rings: seq<Ring>): seq<Element>
  {
    if rings == [] then [] else Layout(m, rings[..|rings| - 1]) + RingElements(m, rings[|rings| - 1])
  }

  /**
   * Builds the elements by pushing ring after ring; the simulator passes
   * SimulatorRings.
   */
  method GenerateArrayElements(m: MathLib, rings: seq<Ring>) returns (elements: seq<Element>)
    ensures elements == Layout(m, rings)
  {
    elements := [];
    var r := 0;
    while r < |rings|
      invariant 0 <= r <= |rings|
      invariant elements == Layout(m, rings[..r])
    {
      var ring := rings[r];
      ghost var before := elements;
      if ring.count == 1 {
        elements := elements + [Element(0.0, 0.0, 1.0, 0.0)];
      } else {
        var i := 0;
        while i < ring.count
          invariant 0 <= i <= RingSize(ring)
          invariant i == 0 ==> elements == before
          invariant 0 < i ==> elements == before + Spokes(m, ring, i)
        {
          var angle := SpokeAngle(m, i, ring.count);
          var (x, y) := PolarToCartesian(m, ring.radius, angle);
          assert SpokeElement(m, ring, i) == Element(x, y, 1.0, 0.0);
          assert Spokes(m, ring, i + 1) == Spokes(m, ring, i) + [Element(x, y, 1.0, 0.0)];
          elements := elements + [Element(x, y, 1.0, 0.0)];
          i := i + 1;
        }
      }
      assert elements == before + RingElements(m, ring);
      LayoutStep(m, rings, r);
      r := r + 1;
    }
    assert rings[..r] == rings;

  }

  /** Laying out one more ring appends that ring's elements. */
  lemma LayoutStep(m: MathLib, rings: seq<Ring>, r: nat)
    requires r < |rings|
    ensures Layout(m, rings[..r + 1]) == Layout(m, rings[..r]) + RingElements(m, rings[r])
  {
    assert rings[..r + 1][..r] == rings[..r];
  }

  /** The layout holds exactly as many elements as the rings' sizes add up to. */
  lemma {:induction false} LayoutLength(m: MathLib, rings: seq<Ring>)
    ensures |Layout(m, rings)| == TotalSize(rings)
  {
    if rings != [] {
      LayoutLength(m, rings[..|rings| - 1]);
    }
  }

  /** The simulator's layout has 1 + 6 + 12 + 18 + 24 = 61 elements. */
  lemma SimulatorElementCount(m: MathLib)
    ensures |Layout(m, SimulatorRings)| == 61
  {
    LayoutLength(m, SimulatorRings);
    var rs := SimulatorRings;
    assert TotalSize(rs[..1]) == 1 by { assert rs[..1][..0] == []; }
    assert TotalSize(rs[..2]) == 7 by { assert rs[..2][..1] == rs[..1]; }
    assert TotalSize(rs[..3]) == 19 by { assert rs[..3][..2] == rs[..2]; }
    assert TotalSize(rs[..4]) == 37 by { assert rs[..4][..3] == rs[..3]; }
    assert rs[..4] == rs[..|rs| - 1];
  }

  /** Earlier rings keep their place when a ring is appended: the layout of a prefix is a prefix. */
  lemma {:induction false} LayoutPrefix(m: MathLib, rings: seq<Ring>, r: nat)
    requires r <= |rings|
    ensures Layout(m, rings[..r]) <= Layout(m, rings)
  {
    if r < |rings| {
      var init := rings[..|rings| - 1];
      assert init[..r] == rings[..r];
      LayoutPrefix(m, init, r);
    } else {
      assert rings[..r] == rings;
    }
  }

  /**
   * Element i of ring r sits right after the elements of the earlier rings:
   * the origin for a count of 1, otherwise at angle 2*pi*i/count on the
   * ring's circle.
   */
  lemma {:induction false} LayoutAt(m: MathLib, rings: seq<Ring>, r: nat, i: nat)
    requires r < |rings| && i < RingSize(rings[r])
    ensures var k := |Layout(m, rings[..r])|;
      && k + i < |Layout(m, rings)|
      && Layout(m, rings)[k + i] == (if rings[r].count == 1 then Element(0.0, 0.0, 1.0, 0.0)
                                     else SpokeElement(m, rings[r], i))
  {
    var init := rings[..|rings| - 1];
    if r == |rings| - 1 {
      assert rings[..r] == init;
    } else {
      assert init[..r] == rings[..r];
      LayoutAt(m, init, r, i);
    }
  }

  /** Every element of every layout has unit amplitude and zero phase. */
  lemma {:induction false} UnitWeights(m: MathLib, rings: seq<Ring>, k: nat)
    requires k < |Layout(m, rings)|
    ensures Layout(m, rings)[k].amplitude == 1.0 && Layout(m, rings)[k].phase == 0.0
  {
    var init := rings[..|rings| - 1];
    if k >= |Layout(m, init)| {
      assert Layout(m, rings)[k] == RingElements(m, rings[|rings| - 1])[k - |Layout(m, init)|];
    } else {
      UnitWeights(m, init, k);
    }
  }
}
