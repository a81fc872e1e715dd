/**
 * The warp grid of `buildWarpGrid`: a row-major lattice of destination points
 * one interline apart, their sources, and the interleaved x/y positions
 * handed to the warp.
 */
module Grid {
  import opened Geometry
  import opened Layout
  import opened Locator

  /** A `WarpGrid`: origin, step and cell count on each axis, and the interleaved source positions. */
  datatype WarpGrid = WarpGrid(xStart: int, xStep: int, xNumCells: int,
                               yStart: int, yStep: int, yNumCells: int,
                               positions: seq<real>)

  /** `(int) Math.ceil(a / (double) b)`: the least number of cells of size `b` that cover `a`. */
  function CellCount(a: nat, b: nat): (r: nat)
    requires b > 0
    ensures a <= r * b < a + b
  {
    var q := (a + b - 1) / b;
    assert q * b + (a + b - 1) % b == a + b - 1;
    q
  }

  /** Row `ir` of the destination lattice: `columns` points `xStep` apart, at ordinate `ir * yStep`. */
  function GridRow(ir: nat, columns: nat, xStep: int, yStep: int): seq<Point>
  {
    seq(columns, ic requires 0 <= ic < columns => Point((ic * xStep) as real, (ir * yStep) as real))
  }

  /** The first `rows` rows of the destination lattice, row after row. */
  function GridPoints(rows: nat, columns: nat, xStep: int, yStep: int): seq<Point>
  {
    if rows == 0 then [] else GridPoints(rows - 1, columns, xStep, yStep) + GridRow(rows - 1, columns, xStep, yStep)
  }

  /** The source of every destination point, in the same order. */
  function SourcesOf(dst: seq<Point>, lines: seq<TargetLine>, proj: PointProjection, projX: AbscissaProjection): (r: seq<Point>)
    requires |lines| > 0
    ensures |r| == |dst|
  {
    seq(|dst|, k requires 0 <= k < |dst| => SourceAt(lines, dst[k], proj, projX))
  }

  /** The sources of one more destination point extend the sources of the others. */
  lemma SourcesAppend(dst: seq<Point>, d: Point, lines: seq<TargetLine>, proj: PointProjection, projX: AbscissaProjection)
    requires |lines| > 0
    ensures SourcesOf(dst + [d], lines, proj, projX) == SourcesOf(dst, lines, proj, projX) + [SourceAt(lines, d, proj, projX)]
  {
    assert forall k :: 0 <= k < |dst| ==> (dst + [d])[k] == dst[k];
  }

  /** The x and y of every point in turn. */
  function Interleaved(points: seq<Point>): seq<real>
  {
    if |points| == 0 then [] else Interleaved(points[..|points| - 1]) + [points[|points| - 1].x, points[|points| - 1].y]
  }

  /** Point `k` of an interleaved x/y sequence, as the warp reads it. */
  function PositionAt(positions: seq<real>, k: nat): Point
    requires 2 * k + 1 < |positions|
  {
    Point(positions[2 * k], positions[2 * k + 1])
  }

  /** Every point of an interleaved x/y sequence. */
  function Positions(positions: seq<real>): (r: seq<Point>)
    ensures |r| == |positions| / 2
  {
    seq(|positions| / 2, k requires 0 <= k < |positions| / 2 => PositionAt(positions, k))
  }

  // ---------------------------------------------------------------------
  // Properties
  // ---------------------------------------------------------------------

  /** The lattice of `rows` rows holds `rows * columns` points. */
  lemma {:induction false} GridSize(rows: nat, columns: nat, xStep: int, yStep: int)
    ensures |GridPoints(rows, columns, xStep, yStep)| == rows * columns
  {
    if rows > 0 {
      GridSize(rows - 1, columns, xStep, yStep);
    }
  }

  /** In row-major order, entry `ir * columns + ic` is the node at column `ic`, row `ir`. */
  lemma {:induction false} GridPointAt(rows: nat, columns: nat, xStep: int, yStep: int, ir: nat, ic: nat)
    requires ir < rows && ic < columns
    ensures |GridPoints(rows, columns, xStep, yStep)| == rows * columns
    ensures GridPoints(rows, columns, xStep, yStep)[ir * columns + ic] == Point((ic * xStep) as real, (ir * yStep) as real)
  {
    GridSize(rows, columns, xStep, yStep);
    GridSize(rows - 1, columns, xStep, yStep);
    var before := (rows - 1) * columns;
    if ir < rows - 1 {
      GridPointAt(rows - 1, columns, xStep, yStep, ir, ic);
      MulMonotonic(ir + 1, rows - 1, columns);
      assert (ir + 1) * columns == ir * columns + columns;
      assert ir * columns + ic < before;
    } else {
      assert ir * columns + ic == before + ic;
    }
  }

  /** Multiplying both sides of `a <= b` by the same natural number. */
  lemma MulMonotonic(a: nat, b: nat, c: nat)
    requires a <= b
    ensures a * c <= b * c
  {
    assert b * c == a * c + (b - a) * c;
  }

  /** Interleaving puts point `k`'s x at slot `2k` and its y at slot `2k + 1`. */
  lemma {:induction false} InterleavedAt(points: seq<Point>, k: nat)
    requires k < |points|
    ensures |Interleaved(points)| == 2 * |points|
    ensures Interleaved(points)[2 * k] == points[k].x && Interleaved(points)[2 * k + 1] == points[k].y
  {
    var n := |points|;
    if k < n - 1 {
      InterleavedAt(points[..n - 1], k);
    } else {
      InterleavedLength(points[..n - 1]);
    }
  }

  /** Interleaving doubles the length. */
  lemma {:induction false} InterleavedLength(points: seq<Point>)
    ensures |Interleaved(points)| == 2 * |points|
  {
    if |points| > 0 {
      InterleavedLength(points[..|points| - 1]);
    }
  }

  /** Reading the interleaved positions back in pairs gives the points again. */
  lemma PositionsRoundTrip(points: seq<Point>)
    ensures Positions(Interleaved(points)) == points
  {
    InterleavedLength(points);
    forall k | 0 <= k < |points|
      ensures Positions(Interleaved(points))[k] == points[k]
    {
      InterleavedAt(points, k);
    }
  }
}
