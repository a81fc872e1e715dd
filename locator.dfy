/**
 * Where a destination point of the idealised page comes from in the original
 * image (`sourceOf`): find the target lines just above and just below it and
 * blend their projections by the point's relative height between them.
 */
module Locator {
  import opened Geometry
  import opened Layout

  /** `TargetLine.sourceOf(Point2D)`: the source of a destination point, seen from one line. Not part of this model. */
  type PointProjection = (TargetLine, Point) -> Point

  /** `TargetLine.sourceOf(double)`: the source of an abscissa on one line. Not part of this model. */
  type AbscissaProjection = (TargetLine, real) -> Point

  /**
   * The position at which the scan stops: the first line lying strictly below
   * ordinate `y` (the south line), or `|lines|` when there is none.  Every line
   * before it lies at or above `y`; the lines need not be sorted.
   */
  function SouthIndex(lines: seq<TargetLine>, y: real): (k: nat)
    ensures k <= |lines|
    ensures forall j :: 0 <= j < k ==> lines[j].y <= y
    ensures k < |lines| ==> lines[k].y > y
  {
    if |lines| == 0 then 0
    else if lines[0].y > y then 0
    else 1 + SouthIndex(lines[1..], y)
  }

  /** The north line: the one just before the south line, or the last one when no line lies below `y`. */
  function North(lines: seq<TargetLine>, y: real): (r: Option<TargetLine>)
    ensures r.Some? ==> r.value.y <= y
  {
    var k := SouthIndex(lines, y);
    if k == 0 then None else Some(lines[k - 1])
  }

  /** The south line: the first one lying strictly below `y`. */
  function South(lines: seq<TargetLine>, y: real): (r: Option<TargetLine>)
    ensures r.Some? ==> r.value.y > y
  {
    var k := SouthIndex(lines, y);
    if k == |lines| then None else Some(lines[k])
  }

  /** The relative height of `y` between a north and a south ordinate. */
  function YRatio(y: real, northY: real, southY: real): real
    requires northY < southY
  {
    (y - northY) / (southY - northY)
  }

  /** The componentwise barycentre `(1 - r) * north + r * south`. */
  function Blend(north: Point, south: Point, r: real): Point
  {
    Point((1.0 - r) * north.x + r * south.x, (1.0 - r) * north.y + r * south.y)
  }

  /**
   * The source of destination point `dst`: the south line's projection above
   * every line, the north line's projection below every line, and otherwise the
   * blend of both lines' projections of `dst.x` by the relative height of `dst.y`.
   */
  function SourceAt(lines: seq<TargetLine>, dst: Point, proj: PointProjection, projX: AbscissaProjection): Point
    requires |lines| > 0
  {
    var k := SouthIndex(lines, dst.y);
    if k == 0 then proj(lines[0], dst)
    else if k == |lines| then proj(lines[k - 1], dst)
    else
      var north := lines[k - 1];
      var south := lines[k];
      Blend(projX(north, dst.x), projX(south, dst.x), YRatio(dst.y, north.y, south.y))
  }

  // ---------------------------------------------------------------------
  // Properties
  // ---------------------------------------------------------------------

  /**
   * The scan brackets `y`: the north line is at or above it, the south line
   * strictly below it, and when both exist the north line comes immediately
   * before the south line in the list.  There is no north line exactly when
   * the first line is below `y`, and no south line exactly when no line is.
   */
  lemma Bracketing(lines: seq<TargetLine>, y: real)
    ensures North(lines, y).None? <==> (|lines| == 0 || lines[0].y > y)
    ensures South(lines, y).None? <==> (forall j :: 0 <= j < |lines| ==> lines[j].y <= y)
    ensures North(lines, y).Some? && South(lines, y).Some? ==>
      && North(lines, y).value.y <= y < South(lines, y).value.y
      && exists k :: 0 < k < |lines| && lines[k - 1] == North(lines, y).value && lines[k] == South(lines, y).value
  {
    var k := SouthIndex(lines, y);
    if North(lines, y).Some? && South(lines, y).Some? {
      assert lines[k - 1] == North(lines, y).value && lines[k] == South(lines, y).value;
    }
  }

  /** How `SourceAt` chooses between its three cases, in terms of the north and south lines. */
  lemma SourceCases(lines: seq<TargetLine>, dst: Point, proj: PointProjection, projX: AbscissaProjection)
    requires |lines| > 0
    ensures var n, s := North(lines, dst.y), South(lines, dst.y);
      && (n.Some? || s.Some?)
      && (n.None? ==> SourceAt(lines, dst, proj, projX) == proj(s.value, dst))
      && (s.None? ==> SourceAt(lines, dst, proj, projX) == proj(n.value, dst))
      && (n.Some? && s.Some? ==>
            && n.value.y < s.value.y
            && SourceAt(lines, dst, proj, projX)
                 == Blend(projX(n.value, dst.x), projX(s.value, dst.x), YRatio(dst.y, n.value.y, s.value.y)))
  {
  }

  /** Between its north and south lines a point's relative height is in [0, 1), and 0 on the north line. */
  lemma YRatioRange(y: real, northY: real, southY: real)
    requires northY <= y < southY
    ensures 0.0 <= YRatio(y, northY, southY) < 1.0
    ensures YRatio(y, northY, southY) == 0.0 <==> y == northY
  {
    var d := southY - northY;
    var r := YRatio(y, northY, southY);
    assert r * d == y - northY;
    assert (y - northY) / d + (southY - y) / d == d / d;
    assert (southY - y) / d > 0.0;
    assert d / d == 1.0;
    assert (y - northY) / d >= 0.0;
  }

  /** Lower points between the same two lines have a larger relative height. */
  lemma YRatioMonotonic(y1: real, y2: real, northY: real, southY: real)
    requires northY < southY && y1 <= y2
    ensures YRatio(y1, northY, southY) <= YRatio(y2, northY, southY)
    ensures y1 < y2 ==> YRatio(y1, northY, southY) < YRatio(y2, northY, southY)
  {
    var d := southY - northY;
    assert YRatio(y1, northY, southY) * d == y1 - northY;
    assert YRatio(y2, northY, southY) * d == y2 - northY;
    assert (YRatio(y2, northY, southY) - YRatio(y1, northY, southY)) * d == y2 - y1;
  }

  /** A blend by a ratio in [0, 1] lies, componentwise, between its two points; ratio 0 gives the first. */
  lemma BlendBetween(north: Point, south: Point, r: real)
    requires 0.0 <= r <= 1.0
    ensures Min(north.x, south.x) <= Blend(north, south, r).x <= Max(north.x, south.x)
    ensures Min(north.y, south.y) <= Blend(north, south, r).y <= Max(north.y, south.y)
    ensures r == 0.0 ==> Blend(north, south, r) == north
    ensures r == 1.0 ==> Blend(north, south, r) == south
  {
    BlendCoordinate(north.x, south.x, r);
    BlendCoordinate(north.y, south.y, r);
  }

  function Min(a: real, b: real): real { if a <= b then a else b }
  function Max(a: real, b: real): real { if a <= b then b else a }

  /** One coordinate of a blend: `(1 - r) * a + r * b` lies between `a` and `b`. */
  lemma BlendCoordinate(a: real, b: real, r: real)
    requires 0.0 <= r <= 1.0
    ensures Min(a, b) <= (1.0 - r) * a + r * b <= Max(a, b)
  {
    var v := (1.0 - r) * a + r * b;
    assert v == a + r * (b - a);
    assert r * (b - a) == (b - a) - (1.0 - r) * (b - a);
    MulSign(r, b - a);
    MulSign(1.0 - r, b - a);
  }

  /** A non-negative factor keeps the sign of the other one. */
  lemma MulSign(x: real, y: real)
    requires x >= 0.0
    ensures y >= 0.0 ==> x * y >= 0.0
    ensures y <= 0.0 ==> x * y <= 0.0
  {
  }

  /**
   * Between two lines, the source lies componentwise between the two lines'
   * projections of the abscissa, and on the north line it is that line's projection.
   */
  lemma SourceBetweenProjections(lines: seq<TargetLine>, dst: Point, proj: PointProjection, projX: AbscissaProjection)
    requires |lines| > 0 && North(lines, dst.y).Some? && South(lines, dst.y).Some?
    ensures var a, b := projX(North(lines, dst.y).value, dst.x), projX(South(lines, dst.y).value, dst.x);
      var src := SourceAt(lines, dst, proj, projX);
      && Min(a.x, b.x) <= src.x <= Max(a.x, b.x)
      && Min(a.y, b.y) <= src.y <= Max(a.y, b.y)
      && (dst.y == North(lines, dst.y).value.y ==> src == a)
  {
    var n, s := North(lines, dst.y).value, South(lines, dst.y).value;
    SourceCases(lines, dst, proj, projX);
    YRatioRange(dst.y, n.y, s.y);
    BlendBetween(projX(n, dst.x), projX(s, dst.x), YRatio(dst.y, n.y, s.y));
  }

  /** The target lines are in ascending order of ordinate. */
  predicate Ascending(lines: seq<TargetLine>)
  {
    forall i, j :: 0 <= i < j < |lines| ==> lines[i].y <= lines[j].y
  }

  /**
   * The scan stops at `k` exactly when every line before `k` lies at or above
   * `y` and line `k`, if any, lies strictly below it.
   */
  lemma SouthIndexAt(lines: seq<TargetLine>, y: real, k: nat)
    requires k <= |lines|
    requires forall j :: 0 <= j < k ==> lines[j].y <= y
    requires k < |lines| ==> lines[k].y > y
    ensures SouthIndex(lines, y) == k
  {
  }

  /**
   * On ascending lines every line from the south line on lies strictly below
   * `y`, so the scan stops at the one split point of the list, the position a
   * binary search for `y` would find.
   */
  lemma SouthIndexSplits(lines: seq<TargetLine>, y: real)
    requires Ascending(lines)
    ensures forall j :: 0 <= j < SouthIndex(lines, y) ==> lines[j].y <= y
    ensures forall j :: SouthIndex(lines, y) <= j < |lines| ==> lines[j].y > y
  {
    var k := SouthIndex(lines, y);
    forall j | k <= j < |lines|
      ensures lines[j].y > y
    {
      assert lines[k].y <= lines[j].y;
    }
  }

  /**
   * On strictly ascending lines, a destination point lying on line `i` takes
   * exactly that line's abscissa projection, or its point projection when it
   * is the last line.
   */
  lemma SourceOnLine(lines: seq<TargetLine>, i: nat, dst: Point, proj: PointProjection, projX: AbscissaProjection)
    requires forall a, b :: 0 <= a < b < |lines| ==> lines[a].y < lines[b].y
    requires i < |lines| && dst.y == lines[i].y
    ensures SourceAt(lines, dst, proj, projX)
      == if i + 1 < |lines| then projX(lines[i], dst.x) else proj(lines[i], dst)
  {
    SouthIndexAt(lines, dst.y, i + 1);
    if i + 1 < |lines| {
      YRatioRange(dst.y, lines[i].y, lines[i + 1].y);
      BlendBetween(projX(lines[i], dst.x), projX(lines[i + 1], dst.x), 0.0);
    }
  }
}
