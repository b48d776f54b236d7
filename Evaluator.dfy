/**
 * The array-factor evaluator (calculateArrayFactor in
 * PhasedArraySimulator.tsx): the magnitude of the complex superposition of
 * every element's contribution towards the direction (theta, phi), with the
 * beam steered by a linear phase gradient along x.
 */
module Evaluator {
  import opened RealMath
  import opened ArrayGeometry

  /** The two slider-controlled inputs of the evaluator. */
  datatype Params = Params(frequency: real, steeringAngle: real)

  /**
   * The phase of one element's contribution: its own phase, the path
   * difference towards (theta, phi), and the steering gradient
   * k * x * sin(steeringAngle in radians), with wave number k = 2*pi*frequency.
   */
  function TotalPhase(m: MathLib, p: Params, e: Element, theta: real, phi: real): real
  {
    var k := 2.0 * m.pi * p.frequency;
    var steeringPhase := k * (e.x * m.sin(theta) * m.cos(phi) + e.y * m.sin(theta) * m.sin(phi));
    e.phase + steeringPhase + k * e.x * m.sin(p.steeringAngle * m.pi / 180.0)
  }

  /** One element's contribution to the real part: amplitude * cos(totalPhase). */
  function RealTerm(m: MathLib, p: Params, e: Element, theta: real, phi: real): real
  {
    e.amplitude * m.cos(TotalPhase(m, p, e, theta, phi))
  }

  /** One element's contribution to the imaginary part: amplitude * sin(totalPhase). */
  function ImagTerm(m: MathLib, p: Params, e: Element, theta: real, phi: real): real
  {
    e.amplitude * m.sin(TotalPhase(m, p, e, theta, phi))
  }

  /** Real part of the superposition: the sum of amplitude * cos(totalPhase). */
  function SumReal(m: MathLib, p: Params, es: seq<Element>, theta: real, phi: real): real
  {
    if es == [] then 0.0
    else
      var e := es[|es| - 1];
      SumReal(m, p, es[..|es| - 1], theta, phi) + RealTerm(m, p, e, theta, phi)
  }

  /** Imaginary part of the superposition: the sum of amplitude * sin(totalPhase). */
  function SumImag(m: MathLib, p: Params, es: seq<Element>, theta: real, phi: real): real
  {
    if es == [] then 0.0
    else
      var e := es[|es| - 1];
      SumImag(m, p, es[..|es| - 1], theta, phi) + ImagTerm(m, p, e, theta, phi)
  }

  /** The squared modulus of the complex number re + i*im. */
  function SquaredModulus(re: real, im: real): real
  {
    re * re + im * im
  }

  /** The array factor: the modulus of the complex sum. */
  function ArrayFactor(m: MathLib, p: Params, es: seq<Element>, theta: real, phi: real): real
  {
    m.sqrt(SquaredModulus(SumReal(m, p, es, theta, phi), SumImag(m, p, es, theta, phi)))
  }

  /** Accumulates sumReal and sumImag element by element, then takes the modulus. */
  method CalculateArrayFactor(m: MathLib, p: Params, es: seq<Element>, theta: real, phi: real)
    returns (af: real)
    ensures af == ArrayFactor(m, p, es, theta, phi)
  {
    var sumReal := 0.0;
    var sumImag := 0.0;
    var n := 0;
    while n < |es|
      invariant 0 <= n <= |es|
      invariant sumReal == SumReal(m, p, es[..n], theta, phi)
      invariant sumImag == SumImag(m, p, es[..n], theta, phi)
    {
      var e := es[n];
      var totalPhase := TotalPhase(m, p, e, theta, phi);
      assert es[..n + 1][..n] == es[..n];
      sumReal := sumReal + e.amplitude * m.cos(totalPhase);
      sumImag := sumImag + e.amplitude * m.sin(totalPhase);
      n := n + 1;
    }
    assert es[..n] == es;
    var power := sumReal * sumReal + sumImag * sumImag;
    assert power == SquaredModulus(sumReal, sumImag);
    af := m.sqrt(power);
  }

  /** The array factor is a modulus, so never negative. */
  lemma ArrayFactorNonNegative(m: MathLib, p: Params, es: seq<Element>, theta: real, phi: real)
    requires Valid(m)
    ensures 0.0 <= ArrayFactor(m, p, es, theta, phi)
  {
    var re, im := SumReal(m, p, es, theta, phi), SumImag(m, p, es, theta, phi);
    assert 0.0 <= SquaredModulus(re, im);
  }

  /** Over no elements both sums stay 0, so the array factor is 0 at every angle. */
  lemma EmptyArrayFactor(m: MathLib, p: Params, theta: real, phi: real)
    requires Valid(m)
    ensures ArrayFactor(m, p, [], theta, phi) == 0.0
  {
    assert SquaredModulus(0.0, 0.0) == 0.0;
    SqrtZero(m);
  }

  /**
   * The sums are additive over a split of the element list, so the order in
   * which blocks of elements are accumulated does not change them.
   */
  lemma {:induction false} SumsSplit(m: MathLib, p: Params, a: seq<Element>, b: seq<Element>, theta: real, phi: real)
    ensures SumReal(m, p, a + b, theta, phi) == SumReal(m, p, a, theta, phi) + SumReal(m, p, b, theta, phi)
    ensures SumImag(m, p, a + b, theta, phi) == SumImag(m, p, a, theta, phi) + SumImag(m, p, b, theta, phi)
  {
    if b == [] {
      assert a + b == a;
    } else {
      var b' := b[..|b| - 1];
      assert (a + b)[..|a + b| - 1] == a + b';
      SumsSplit(m, p, a, b', theta, phi);
    }
  }

  /** Swapping two blocks of elements leaves the array factor unchanged. */
  lemma SwapBlocks(m: MathLib, p: Params, a: seq<Element>, b: seq<Element>, theta: real, phi: real)
    ensures ArrayFactor(m, p, a + b, theta, phi) == ArrayFactor(m, p, b + a, theta, phi)
  {
    SumsSplit(m, p, a, b, theta, phi);
    SumsSplit(m, p, b, a, theta, phi);
    assert SumReal(m, p, a + b, theta, phi) == SumReal(m, p, b + a, theta, phi);
    assert SumImag(m, p, a + b, theta, phi) == SumImag(m, p, b + a, theta, phi);
  }

  /**
   * The sums do not depend on the order of summation: any rearrangement of
   * the elements (the same multiset) accumulates the same two sums.
   */
  lemma {:induction false} SumsPermutation(m: MathLib, p: Params, a: seq<Element>, b: seq<Element>, theta: real, phi: real)
    requires multiset(a) == multiset(b)
    ensures SumReal(m, p, a, theta, phi) == SumReal(m, p, b, theta, phi)
    ensures SumImag(m, p, a, theta, phi) == SumImag(m, p, b, theta, phi)
  {
    if a == [] {
      assert |b| == |multiset(b)| == 0;
    } else {
      var x := a[|a| - 1];
      var a' := a[..|a| - 1];
      assert a == a' + [x];
      assert x in multiset(b);
      var j :| 0 <= j < |b| && b[j] == x;
      var lo, hi := b[..j], b[j + 1..];
      assert b == lo + ([x] + hi);
      CancelOne(a', x, lo, hi);
      SumsPermutation(m, p, a', lo + hi, theta, phi);
      SumsAroundOne(m, p, lo, x, hi, theta, phi);
      assert SumReal(m, p, a, theta, phi) == SumReal(m, p, a', theta, phi) + RealTerm(m, p, x, theta, phi);
      assert SumImag(m, p, a, theta, phi) == SumImag(m, p, a', theta, phi) + ImagTerm(m, p, x, theta, phi);
    }
  }

  /** Removing one occurrence of x from two rearrangements of each other leaves rearrangements. */
  lemma CancelOne(a: seq<Element>, x: Element, lo: seq<Element>, hi: seq<Element>)
    requires multiset(a + [x]) == multiset(lo + ([x] + hi))
    ensures multiset(a) == multiset(lo + hi)
  {
    assert multiset(a + [x]) == multiset(a) + multiset{x};
    assert multiset(lo + ([x] + hi)) == multiset(lo) + multiset{x} + multiset(hi);
    forall y ensures multiset(a)[y] == multiset(lo + hi)[y] {
      assert multiset(a + [x])[y] == multiset(lo + ([x] + hi))[y];
    }
  }

  /** Inserting x anywhere adds its contribution to each sum. */
  lemma SumsAroundOne(m: MathLib, p: Params, lo: seq<Element>, x: Element, hi: seq<Element>, theta: real, phi: real)
    ensures SumReal(m, p, lo + ([x] + hi), theta, phi)
      == SumReal(m, p, lo + hi, theta, phi) + RealTerm(m, p, x, theta, phi)
    ensures SumImag(m, p, lo + ([x] + hi), theta, phi)
      == SumImag(m, p, lo + hi, theta, phi) + ImagTerm(m, p, x, theta, phi)
  {
    SumsSplit(m, p, lo, [x] + hi, theta, phi);
    SumsSplit(m, p, [x], hi, theta, phi);
    SumsSplit(m, p, lo, hi, theta, phi);
    assert [x][..0] == [];
  }

  /** Rearranging the elements leaves the array factor unchanged. */
  lemma PermutedArrayFactor(m: MathLib, p: Params, a: seq<Element>, b: seq<Element>, theta: real, phi: real)
    requires multiset(a) == multiset(b)
    ensures ArrayFactor(m, p, a, theta, phi) == ArrayFactor(m, p, b, theta, phi)
  {
    SumsPermutation(m, p, a, b, theta, phi);
  }

  /** Elements of zero amplitude contribute nothing: both sums vanish. */
  lemma {:induction false} SilentSums(m: MathLib, p: Params, es: seq<Element>, theta: real, phi: real)
    requires forall i :: 0 <= i < |es| ==> es[i].amplitude == 0.0
    ensures SumReal(m, p, es, theta, phi) == 0.0 && SumImag(m, p, es, theta, phi) == 0.0
  {
    if es != [] {
      SilentSums(m, p, es[..|es| - 1], theta, phi);
    }
  }

  /** An array whose every amplitude is zero radiates nothing in any direction. */
  lemma SilentArrayFactor(m: MathLib, p: Params, es: seq<Element>, theta: real, phi: real)
    requires Valid(m)
    requires forall i :: 0 <= i < |es| ==> es[i].amplitude == 0.0
    ensures ArrayFactor(m, p, es, theta, phi) == 0.0
  {
    SilentSums(m, p, es, theta, phi);
    assert SquaredModulus(0.0, 0.0) == 0.0;
    SqrtZero(m);
  }

  /**
   * At frequency 0 every path and steering term vanishes, so unit-weight,
   * zero-phase elements add in phase: the sums are (n, 0).
   */
  lemma {:induction false} InPhaseSums(m: MathLib, p: Params, es: seq<Element>, theta: real, phi: real)
    requires Valid(m) && p.frequency == 0.0
    requires forall i :: 0 <= i < |es| ==> es[i].amplitude == 1.0 && es[i].phase == 0.0
    ensures SumReal(m, p, es, theta, phi) == |es| as real
    ensures SumImag(m, p, es, theta, phi) == 0.0
  {
    if es != [] {
      var e := es[|es| - 1];
      assert TotalPhase(m, p, e, theta, phi) == 0.0;
      InPhaseSums(m, p, es[..|es| - 1], theta, phi);
    }
  }

  /** At frequency 0 the pattern is omnidirectional: the array factor is the element count. */
  lemma OmnidirectionalAtZeroFrequency(m: MathLib, p: Params, es: seq<Element>, theta: real, phi: real)
    requires Valid(m) && p.frequency == 0.0
    requires forall i :: 0 <= i < |es| ==> es[i].amplitude == 1.0 && es[i].phase == 0.0
    ensures ArrayFactor(m, p, es, theta, phi) == |es| as real
  {
    InPhaseSums(m, p, es, theta, phi);
    var n := |es| as real;
    var re, im := SumReal(m, p, es, theta, phi), SumImag(m, p, es, theta, phi);
    assert SquaredModulus(re, im) == n * n;
    SqrtOfSquare(m, n);
  }
}
