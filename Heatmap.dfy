/**
 * The intensity heat-map (the second drawing effect of
 * PhasedArraySimulator.tsx): the array factor on a 40 x 40 (theta, phi)
 * grid, flattened row by row, its maximum taken as the top of the colour
 * scale's domain, and flat cell k drawn at column k % 40, row k / 40 of a
 * 400 x 300 picture.
 */
module Heatmap {
  import opened RealMath
  import opened ArrayGeometry
  import opened Evaluator

  const Resolution: nat := 40
  const MapWidth: real := 400.0
  const MapHeight: real := 300.0
  const CellWidth: real := MapWidth / Resolution as real
  const CellHeight: real := MapHeight / Resolution as real

  /** Elevation of grid row i: i / 40 of pi. */
  function RowTheta(m: MathLib, i: int): real
  {
    (i as real / Resolution as real) * m.pi
  }

  /** Azimuth of grid column j: j / 40 of a full turn. */
  function ColumnPhi(m: MathLib, j: int): real
  {
    (j as real / Resolution as real) * 2.0 * m.pi
  }

  /** The intensity sampled at grid cell (i, j). */
  function Sample(m: MathLib, p: Params, es: seq<Element>, i: int, j: int): real
  {
    ArrayFactor(m, p, es, RowTheta(m, i), ColumnPhi(m, j))
  }

  /** Fills data[i][j] with the intensity at (theta_i, phi_j), row after row. */
  method SampleGrid(m: MathLib, p: Params, es: seq<Element>) returns (data: seq<seq<real>>)
    ensures |data| == Resolution
    ensures forall i :: 0 <= i < |data| ==> |data[i]| == Resolution
    ensures forall i, j :: 0 <= i < Resolution && 0 <= j < Resolution ==> data[i][j] == Sample(m, p, es, i, j)
  {
    data := [];
    var i := 0;
    while i < Resolution
      invariant 0 <= i <= Resolution && |data| == i
      invariant forall r :: 0 <= r < i ==> |data[r]| == Resolution
      invariant forall r, j :: 0 <= r < i && 0 <= j < Resolution ==> data[r][j] == Sample(m, p, es, r, j)
    {
      var row: seq<real> := [];
      var j := 0;
      while j < Resolution
        invariant 0 <= j <= Resolution && |row| == j
        invariant forall c :: 0 <= c < j ==> row[c] == Sample(m, p, es, i, c)
      {
        var theta := (i as real / Resolution as real) * m.pi;
        var phi := (j as real / Resolution as real) * 2.0 * m.pi;
        assert theta == RowTheta(m, i) && phi == ColumnPhi(m, j);
        var intensity := CalculateArrayFactor(m, p, es, theta, phi);
        row := row + [intensity];
        j := j + 1;
      }
      data := data + [row];
      i := i + 1;
    }
  }

  /** Concatenation of the rows, in row order (Array.prototype.flat). */
  function Flatten(rows: seq<seq<real>>): seq<real>
  {
    if rows == [] then [] else Flatten(rows[..|rows| - 1]) + rows[|rows| - 1]
  }

  /**
   * Flattening rows of a common width w puts entry (i, j) at index i * w + j,
   * and the result holds rows * w entries.
   */
  lemma {:induction false} FlattenAt(rows: seq<seq<real>>, w: nat, i: nat, j: nat)
    requires forall r :: 0 <= r < |rows| ==> |rows[r]| == w
    requires i < |rows| && j < w
    ensures |Flatten(rows)| == |rows| * w
    ensures i * w + j < |Flatten(rows)| && Flatten(rows)[i * w + j] == rows[i][j]
  {
    var init := rows[..|rows| - 1];
    FlattenLength(init, w);
    if i < |rows| - 1 {
      FlattenAt(init, w, i, j);
    }
    assert |Flatten(rows)| == (|rows| - 1) * w + w;
    assert i * w + j < |Flatten(rows)| by {
      assert i * w <= (|rows| - 1) * w;
    }
    if i == |rows| - 1 {
      assert i * w + j - |Flatten(init)| == j;
    } else {
      assert i * w + j < (|rows| - 1) * w by {
        assert i * w + w <= (|rows| - 1) * w;
      }
    }
  }

  lemma {:induction false} FlattenLength(rows: seq<seq<real>>, w: nat)
    requires forall r :: 0 <= r < |rows| ==> |rows[r]| == w
    ensures |Flatten(rows)| == |rows| * w
  {
    if rows != [] {
      FlattenLength(rows[..|rows| - 1], w);
    }
  }

  /** Every flattened entry comes from some row. */
  lemma {:induction false} FlattenFrom(rows: seq<seq<real>>, k: nat)
    requires k < |Flatten(rows)|
    ensures exists r, c :: 0 <= r < |rows| && 0 <= c < |rows[r]| && Flatten(rows)[k] == rows[r][c]
  {
    var init := rows[..|rows| - 1];
    var last := |rows| - 1;
    if k < |Flatten(init)| {
      FlattenFrom(init, k);
      var r, c :| 0 <= r < |init| && 0 <= c < |init[r]| && Flatten(init)[k] == init[r][c];
      assert rows[r] == init[r];
    } else {
      var c := k - |Flatten(init)|;
      assert Flatten(rows)[k] == rows[last][c];
    }
  }

  /** Math.max over a spread list: negative infinity for no arguments. */
  datatype Extended = NegInfinity | Finite(value: real)

  /** The largest entry, as Math.max(...s) computes it. */
  function MaxOf(s: seq<real>): (r: Extended)
    ensures r == NegInfinity <==> s == []
    ensures r.Finite? ==> forall k :: 0 <= k < |s| ==> s[k] <= r.value
    ensures r.Finite? ==> exists k :: 0 <= k < |s| && s[k] == r.value
  {
    if s == [] then NegInfinity
    else
      var last := s[|s| - 1];
      match MaxOf(s[..|s| - 1])
      case NegInfinity => Finite(last)
      case Finite(v) => Finite(if v < last then last else v)
  }

  /** Column of flat cell k. */
  function Column(k: nat): nat
  {
    k % Resolution
  }

  /** Row of flat cell k. */
  function Row(k: nat): nat
  {
    k / Resolution
  }

  /** A drawn heat-map rectangle and the intensity that colours it. */
  datatype Cell = Cell(x: real, y: real, width: real, height: real, intensity: real)

  /** The rectangle drawn for flat entry k. */
  function CellAt(flat: seq<real>, k: nat): Cell
    requires k < |flat|
  {
    Cell(Column(k) as real * CellWidth, Row(k) as real * CellHeight, CellWidth, CellHeight, flat[k])
  }

  /** What the heat-map effect produces: the flat samples, the colour domain and the cells. */
  datatype Frame = Frame(flat: seq<real>, domain: (real, Extended), cells: seq<Cell>)

  /**
   * Samples the grid, flattens it, takes its maximum as the top of the colour
   * domain [0, max] (no guard for a zero maximum) and lays out one cell per
   * flat entry.
   */
  method RenderHeatmap(m: MathLib, p: Params, es: seq<Element>) returns (frame: Frame)
    ensures |frame.flat| == Resolution * Resolution
    ensures forall i, j :: 0 <= i < Resolution && 0 <= j < Resolution ==>
      frame.flat[i * Resolution + j] == Sample(m, p, es, i, j)
    ensures frame.domain.0 == 0.0 && frame.domain.1.Finite?
    ensures forall k :: 0 <= k < |frame.flat| ==> frame.flat[k] <= frame.domain.1.value
    ensures exists k :: 0 <= k < |frame.flat| && frame.flat[k] == frame.domain.1.value
    ensures |frame.cells| == |frame.flat|
    ensures forall k :: 0 <= k < |frame.cells| ==> frame.cells[k] == CellAt(frame.flat, k)
  {
    var data := SampleGrid(m, p, es);
    var flat := Flatten(data);
    FlattenLength(data, Resolution);
    forall i, j | 0 <= i < Resolution && 0 <= j < Resolution
      ensures flat[i * Resolution + j] == Sample(m, p, es, i, j)
    {
      FlattenAt(data, Resolution, i, j);
    }
    var maxIntensity := MaxOf(flat);
    var cells := seq(|flat|, k requires 0 <= k < |flat| =>
      Cell((k % Resolution) as real * CellWidth, (k / Resolution) as real * CellHeight, CellWidth, CellHeight, flat[k]));
    frame := Frame(flat, (0.0, maxIntensity), cells);
  }

  /** Grid cell (i, j) is flattened to index i * 40 + j, which is drawn at column j, row i. */
  lemma GridPlacement(i: nat, j: nat)
    requires i < Resolution && j < Resolution
    ensures Column(i * Resolution + j) == j && Row(i * Resolution + j) == i
  {
  }

  /** Every cell of the 1600 lies inside the 400 x 300 picture. */
  lemma CellInside(flat: seq<real>, k: nat)
    requires |flat| == Resolution * Resolution && k < |flat|
    ensures var c := CellAt(flat, k);
      0.0 <= c.x && c.x + c.width <= MapWidth && 0.0 <= c.y && c.y + c.height <= MapHeight
  {
    assert Row(k) < Resolution;
  }

  /** Distinct cells do not overlap: one lies wholly beside or wholly above the other. */
  lemma CellsDisjoint(flat: seq<real>, k: nat, k': nat)
    requires k < |flat| && k' < |flat| && k != k'
    ensures var c, d := CellAt(flat, k), CellAt(flat, k');
      c.x + c.width <= d.x || d.x + d.width <= c.x || c.y + c.height <= d.y || d.y + d.height <= c.y
  {
    assert CellWidth == 10.0 && CellHeight == 7.5;
    assert k == Row(k) * Resolution + Column(k);
    assert k' == Row(k') * Resolution + Column(k');
    if Row(k) == Row(k') {
      if Column(k) < Column(k') {
        assert Column(k) as real + 1.0 <= Column(k') as real;
      } else {
        assert Column(k') as real + 1.0 <= Column(k) as real;
      }
    } else if Row(k) < Row(k') {
      assert Row(k) as real + 1.0 <= Row(k') as real;
    } else {
      assert Row(k') as real + 1.0 <= Row(k) as real;
    }
  }

  /** If every sample is 0 the colour domain collapses to [0, 0]. */
  lemma ZeroFieldDomain(flat: seq<real>)
    requires |flat| > 0 && forall k :: 0 <= k < |flat| ==> flat[k] == 0.0
    ensures MaxOf(flat) == Finite(0.0)
  {
  }

  /**
   * A silent array (every amplitude 0) yields an all-zero field, so the
   * colour domain the heat-map passes on is [0, 0].
   */
  lemma SilentArrayDomain(m: MathLib, p: Params, es: seq<Element>, rows: seq<seq<real>>)
    requires Valid(m)
    requires forall i :: 0 <= i < |es| ==> es[i].amplitude == 0.0
    requires |rows| == Resolution
    requires forall i :: 0 <= i < |rows| ==> |rows[i]| == Resolution
    requires forall i, j :: 0 <= i < Resolution && 0 <= j < Resolution ==> rows[i][j] == Sample(m, p, es, i, j)
    ensures MaxOf(Flatten(rows)) == Finite(0.0)
  {
    var flat := Flatten(rows);
    FlattenLength(rows, Resolution);
    forall k | 0 <= k < |flat| ensures flat[k] == 0.0 {
      FlattenFrom(rows, k);
      var r, c :| 0 <= r < |rows| && 0 <= c < |rows[r]| && flat[k] == rows[r][c];
      SilentArrayFactor(m, p, es, RowTheta(m, r), ColumnPhi(m, c));
    }
  }
}
