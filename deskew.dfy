/**
 * The branch of `computeDeskew` that picks the origin translation and the
 * target page size from the rotated sheet corners, and what it achieves when
 * those corners come from a rotation by an angle strictly between -pi/2 and
 * pi/2 (as `-atan(slope)` always is).
 */
module Deskew {
  import opened Geometry

  /**
   * What `computeDeskew` reads: the deskew angle and the images, under the
   * rotation alone, of the sheet's top-right, bottom-left and bottom-right corners.
   */
  datatype Skew = Skew(angle: real, topRight: Point, bottomLeft: Point, bottomRight: Point)

  /** What `computeDeskew` decides: the origin translation and the target width and height. */
  datatype Frame = Frame(dx: real, dy: real, width: real, height: real)

  /**
   * A counter-clockwise deskew (angle <= 0) moves the top-right corner up, so
   * the page is shifted down by its height; a clockwise one moves the
   * bottom-left corner left, so the page is shifted right by its abscissa.
   */
  function FrameOf(skew: Skew): Frame
  {
    if skew.angle <= 0.0 then
      var dy := -skew.topRight.y;
      Frame(0.0, dy, skew.bottomRight.x, skew.bottomLeft.y + dy)
    else
      var dx := -skew.bottomLeft.x;
      Frame(dx, 0.0, skew.topRight.x + dx, skew.bottomRight.y)
  }

  /** A rotation given by its cosine and sine. */
  datatype Rotation = Rotation(cos: real, sin: real)

  /** A rotation by an angle strictly between -pi/2 and pi/2. */
  predicate IsDeskewRotation(r: Rotation)
  {
    r.cos > 0.0 && r.cos * r.cos + r.sin * r.sin == 1.0
  }

  /** `AffineTransform.getRotateInstance(angle).transform(p)`. */
  function Rotate(r: Rotation, p: Point): Point
  {
    Point(p.x * r.cos - p.y * r.sin, p.x * r.sin + p.y * r.cos)
  }

  /** The inputs of `computeDeskew` for a `w` by `h` sheet rotated by `r`. */
  function SkewOf(angle: real, r: Rotation, w: nat, h: nat): Skew
  {
    Skew(angle, Rotate(r, Point(w as real, 0.0)), Rotate(r, Point(0.0, h as real)), Rotate(r, Point(w as real, h as real)))
  }

  /** Corner `k` of a `w` by `h` sheet: top-left, top-right, bottom-left, bottom-right. */
  function Corner(w: nat, h: nat, k: nat): Point
  {
    if k == 0 then Point(0.0, 0.0)
    else if k == 1 then Point(w as real, 0.0)
    else if k == 2 then Point(0.0, h as real)
    else Point(w as real, h as real)
  }

  /** The translation part of the frame. */
  function Translate(p: Point, f: Frame): Point
  {
    Point(p.x + f.dx, p.y + f.dy)
  }

  /** The deskew map as intended: rotate, then translate to the new origin. */
  function Deskewed(r: Rotation, f: Frame, p: Point): Point
  {
    Translate(Rotate(r, p), f)
  }

  /**
   * The deskew map as line 364 builds it: `at.translate(dx, dy)` concatenates
   * the translation on the right of the rotation, so it is applied first.
   */
  function DeskewedAsWritten(r: Rotation, f: Frame, p: Point): Point
  {
    Rotate(r, Translate(p, f))
  }

  /** A point lies inside the target page. */
  predicate InFrame(p: Point, f: Frame)
  {
    0.0 <= p.x <= f.width && 0.0 <= p.y <= f.height
  }

  /**
   * With translation after rotation, the chosen frame is exactly the bounding
   * box of the rotated sheet: every corner lands inside it, and each of its four
   * sides is touched by a corner.
   */
  lemma FrameIsBoundingBox(angle: real, r: Rotation, w: nat, h: nat)
    requires IsDeskewRotation(r) && (angle <= 0.0 <==> r.sin <= 0.0)
    ensures var f := FrameOf(SkewOf(angle, r, w, h));
      && (forall k :: 0 <= k < 4 ==> InFrame(Deskewed(r, f, Corner(w, h, k)), f))
      && (exists k :: 0 <= k < 4 && Deskewed(r, f, Corner(w, h, k)).x == 0.0)
      && (exists k :: 0 <= k < 4 && Deskewed(r, f, Corner(w, h, k)).x == f.width)
      && (exists k :: 0 <= k < 4 && Deskewed(r, f, Corner(w, h, k)).y == 0.0)
      && (exists k :: 0 <= k < 4 && Deskewed(r, f, Corner(w, h, k)).y == f.height)
  {
    var f := FrameOf(SkewOf(angle, r, w, h));
    var p0, p1, p2, p3 := Deskewed(r, f, Corner(w, h, 0)), Deskewed(r, f, Corner(w, h, 1)),
                          Deskewed(r, f, Corner(w, h, 2)), Deskewed(r, f, Corner(w, h, 3));
    if angle <= 0.0 {
      CounterClockwiseCorners(angle, r, w, h);
      assert p0.x == 0.0 && p3.x == f.width && p1.y == 0.0 && p2.y == f.height;
    } else {
      ClockwiseCorners(angle, r, w, h);
      assert p2.x == 0.0 && p1.x == f.width && p0.y == 0.0 && p3.y == f.height;
    }
    forall k | 0 <= k < 4
      ensures InFrame(Deskewed(r, f, Corner(w, h, k)), f)
    {
      assert k == 0 || k == 1 || k == 2 || k == 3;
    }
  }

  /** The frame and the four deskewed corners of a counter-clockwise deskew, and the signs of their terms. */
  lemma CounterClockwiseCorners(angle: real, r: Rotation, w: nat, h: nat)
    requires r.cos > 0.0 && r.sin <= 0.0 && angle <= 0.0
    ensures var f := FrameOf(SkewOf(angle, r, w, h));
      var wc, ws, hc, hs := w as real * r.cos, w as real * r.sin, h as real * r.cos, h as real * r.sin;
      && f == Frame(0.0, -ws, wc - hs, hc - ws)
      && Deskewed(r, f, Corner(w, h, 0)) == Point(0.0, -ws)
      && Deskewed(r, f, Corner(w, h, 1)) == Point(wc, 0.0)
      && Deskewed(r, f, Corner(w, h, 2)) == Point(-hs, hc - ws)
      && Deskewed(r, f, Corner(w, h, 3)) == Point(wc - hs, hc)
      && 0.0 <= wc && 0.0 <= hc && ws <= 0.0 && hs <= 0.0
  {
    var wr, hr := w as real, h as real;
    assert wr * r.cos >= 0.0 && hr * r.cos >= 0.0;
    assert wr * r.sin <= 0.0 && hr * r.sin <= 0.0;
  }

  /** The frame and the four deskewed corners of a clockwise deskew, and the signs of their terms. */
  lemma ClockwiseCorners(angle: real, r: Rotation, w: nat, h: nat)
    requires r.cos > 0.0 && r.sin > 0.0 && angle > 0.0
    ensures var f := FrameOf(SkewOf(angle, r, w, h));
      var wc, ws, hc, hs := w as real * r.cos, w as real * r.sin, h as real * r.cos, h as real * r.sin;
      && f == Frame(hs, 0.0, wc + hs, ws + hc)
      && Deskewed(r, f, Corner(w, h, 0)) == Point(hs, 0.0)
      && Deskewed(r, f, Corner(w, h, 1)) == Point(wc + hs, ws)
      && Deskewed(r, f, Corner(w, h, 2)) == Point(0.0, hc)
      && Deskewed(r, f, Corner(w, h, 3)) == Point(wc, ws + hc)
      && 0.0 <= wc && 0.0 <= hc && 0.0 <= ws && 0.0 <= hs
  {
    var wr, hr := w as real, h as real;
    assert wr * r.cos >= 0.0 && hr * r.cos >= 0.0;
    assert wr * r.sin >= 0.0 && hr * r.sin >= 0.0;
  }

  /**
   * As written, a clockwise deskew of a 5 by 5 sheet by the rotation with
   * cosine 3/5 and sine 4/5 (an angle of about 0.9273 radians) sends the
   * bottom-left corner to abscissa -1.6, outside the 7 by 7 target page.
   */
  lemma AsWrittenLeavesFrame()
    ensures var r := Rotation(0.6, 0.8);
      var f := FrameOf(SkewOf(0.9273, r, 5, 5));
      && IsDeskewRotation(r)
      && f == Frame(4.0, 0.0, 7.0, 7.0)
      && DeskewedAsWritten(r, f, Corner(5, 5, 2)) == Point(-1.6, 6.2)
      && !InFrame(DeskewedAsWritten(r, f, Corner(5, 5, 2)), f)
  {
  }

  /**
   * As written, every deskew by a non-zero angle misses the frame on a sheet
   * with positive sides: a clockwise one sends the bottom-left corner to
   * abscissa h sin (cos - 1) < 0, a counter-clockwise one sends the top-right
   * corner to ordinate w sin (1 - cos) < 0.
   */
  lemma AsWrittenMissesFrame(angle: real, r: Rotation, w: nat, h: nat)
    requires IsDeskewRotation(r) && r.cos < 1.0 && (angle <= 0.0 <==> r.sin <= 0.0)
    requires w > 0 && h > 0
    ensures var f := FrameOf(SkewOf(angle, r, w, h));
      if angle > 0.0 then
        DeskewedAsWritten(r, f, Corner(w, h, 2)).x < 0.0
      else
        DeskewedAsWritten(r, f, Corner(w, h, 1)).y < 0.0
    ensures var f := FrameOf(SkewOf(angle, r, w, h));
      exists k :: 0 <= k < 4 && !InFrame(DeskewedAsWritten(r, f, Corner(w, h, k)), f)
  {
    var f := FrameOf(SkewOf(angle, r, w, h));
    var wr, hr := w as real, h as real;
    assert r.cos * r.cos < 1.0 by {
      assert r.cos * r.cos < r.cos * 1.0;
    }
    assert r.sin != 0.0;
    if angle > 0.0 {
      var p := DeskewedAsWritten(r, f, Corner(w, h, 2));
      assert hr * r.sin > 0.0;
      assert p.x == (hr * r.sin) * (r.cos - 1.0);
      assert (hr * r.sin) * (1.0 - r.cos) > 0.0;
      assert !InFrame(p, f);
    } else {
      var p := DeskewedAsWritten(r, f, Corner(w, h, 1));
      assert wr * (-r.sin) > 0.0;
      assert p.y == (wr * (-r.sin)) * (r.cos - 1.0);
      assert (wr * (-r.sin)) * (1.0 - r.cos) > 0.0;
      assert !InFrame(p, f);
    }
  }
}
