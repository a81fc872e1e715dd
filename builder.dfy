/**
 * `TargetBuilder`: the object that computes the deskew frame, builds the
 * target page and the list of all target lines, and fills the warp grid.
 * Its methods update its fields step by step as the source does; each is
 * proved against the specification functions of the other modules.
 */
module Builder {
  import opened Geometry
  import opened Layout
  import opened Locator
  import opened Deskew
  import opened Grid

  class TargetBuilder {
    /** Target width and height, as chosen by `ComputeDeskew`. */
    var targetWidth: real
    var targetHeight: real

    /** The origin translation of the deskew transform; its rotation is modelled separately by `Deskew.Rotate`. */
    var dx: real
    var dy: real

    /** The target page. */
    var targetPage: TargetPage

    /** All target lines, in the order they were built. */
    var allTargetLines: seq<TargetLine>

    /** Source and destination points of the warp grid. */
    var srcPoints: seq<Point>
    var dstPoints: seq<Point>

    /** The dewarp grid. */
    var dewarpGrid: WarpGrid

    constructor ()
      ensures allTargetLines == [] && srcPoints == [] && dstPoints == []
    {
      targetWidth, targetHeight, dx, dy := 0.0, 0.0, 0.0, 0.0;
      targetPage := TargetPage(0.0, 0.0, []);
      allTargetLines, srcPoints, dstPoints := [], [], [];
      dewarpGrid := WarpGrid(0, 0, 0, 0, 0, 0, []);
    }

    /** Chooses the origin translation and the target size from the rotated corners. */
    method ComputeDeskew(skew: Skew)
      modifies this`targetWidth, this`targetHeight, this`dx, this`dy
      ensures Frame(dx, dy, targetWidth, targetHeight) == FrameOf(skew)
    {
      dx, dy := 0.0, 0.0;
      if skew.angle <= 0.0 {
        targetWidth := skew.bottomRight.x;
        dy := -skew.topRight.y;
        targetHeight := skew.bottomLeft.y + dy;
      } else {
        dx := -skew.bottomLeft.x;
        targetWidth := skew.topRight.x + dx;
        targetHeight := skew.bottomRight.y;
      }
    }

    /**
     * Builds the target page and appends every target line to `allTargetLines`,
     * system by system, staff by staff, line by line.
     */
    method BuildTarget(skew: Skew, frames: seq<SystemFrame>, deskew: DeskewMap)
      modifies this`targetWidth, this`targetHeight, this`dx, this`dy, this`targetPage, this`allTargetLines
      ensures Frame(dx, dy, targetWidth, targetHeight) == FrameOf(skew)
      ensures targetPage == TargetPage(targetWidth, targetHeight, Target(frames, deskew).systems)
      ensures allTargetLines == old(allTargetLines) + Target(frames, deskew).lines
    {
      ComputeDeskew(skew);
      targetPage := TargetPage(targetWidth, targetHeight, []);
      BuildSystems(frames, deskew);
    }

    /**
     * Appends to the (empty) target page one target system per detected
     * system, and every target line to `allTargetLines`.
     */
    method BuildSystems(frames: seq<SystemFrame>, deskew: DeskewMap)
      requires targetPage.systems == []
      modifies this`targetPage, this`allTargetLines
      ensures targetPage == old(targetPage).(systems := Target(frames, deskew).systems)
      ensures allTargetLines == old(allTargetLines) + Target(frames, deskew).lines
    {
      var prevLine: Option<TargetLine> := None;
      ghost var built := TargetOf(frames, deskew, 0);
      for i := 0 to |frames|
        invariant built == TargetOf(frames, deskew, i)
        invariant targetPage == old(targetPage).(systems := built.systems)
        invariant allTargetLines == old(allTargetLines) + built.lines
        invariant prevLine == built.prev
      {
        prevLine := BuildSystem(frames[i], i, prevLine, deskew, built, old(allTargetLines));
        built := TargetOf(frames, deskew, i + 1);
      }
    }

    /**
     * Appends the target system for `frame`, the `i`-th detected system, with
     * its staves, to the target page, appending its lines to `allTargetLines`;
     * `acc` is what was built before it, on top of `lines0`.
     */
    method BuildSystem(frame: SystemFrame, i: nat, prevLine: Option<TargetLine>, deskew: DeskewMap,
                       ghost acc: Built, ghost lines0: seq<TargetLine>)
      returns (lastLine: Option<TargetLine>)
      requires Linked(acc) && i == |acc.systems|
      requires targetPage.systems == acc.systems && prevLine == acc.prev && allTargetLines == lines0 + acc.lines
      modifies this`targetPage, this`allTargetLines
      ensures var next := NextSystem(acc, frame, i, deskew);
        && targetPage == old(targetPage).(systems := next.systems)
        && lastLine == next.prev
        && allTargetLines == lines0 + next.lines
    {
      var targetSystem := NewSystem(frame, targetPage.systems, prevLine, deskew);
      var staves;
      staves, lastLine := BuildStaves(frame, i, prevLine, deskew);
      targetPage := targetPage.(systems := targetPage.systems + [targetSystem.(staves := staves)]);
      assert allTargetLines == lines0 + (acc.lines + StavesOf(frame, i, prevLine, deskew, |frame.staves|).lines);
    }

    /**
     * Builds the target staves of `system`, the `i`-th system, appending their
     * lines to `allTargetLines` and advancing `prevLine` along them.
     */
    method BuildStaves(system: SystemFrame, i: nat, prevLine: Option<TargetLine>, deskew: DeskewMap)
      returns (staves: seq<TargetStaff>, lastLine: Option<TargetLine>)
      modifies this`allTargetLines
      ensures var s := StavesOf(system, i, prevLine, deskew, |system.staves|);
        staves == s.staves && lastLine == s.prev && allTargetLines == old(allTargetLines) + s.lines
    {
      staves, lastLine := [], prevLine;
      for j := 0 to |system.staves|
        invariant var s := StavesOf(system, i, prevLine, deskew, j);
          staves == s.staves && lastLine == s.prev && allTargetLines == old(allTargetLines) + s.lines
      {
        var targetStaff;
        targetStaff, lastLine := BuildStaff(system.staves[j], i, j, lastLine, deskew);
        staves := staves + [targetStaff];
      }
    }

    /**
     * Builds the target staff for `staff`, staff `j` of system `i`, appending
     * its lines to `allTargetLines` and advancing `prevLine` to the last of them.
     */
    method BuildStaff(staff: StaffInfo, i: nat, j: nat, prevLine: Option<TargetLine>, deskew: DeskewMap)
      returns (targetStaff: TargetStaff, lastLine: Option<TargetLine>)
      modifies this`allTargetLines
      ensures var top := StaffTop(staff, prevLine, deskew);
        targetStaff == TargetStaff(staff, top, i, LinesOf(staff, top, i, j))
      ensures allTargetLines == old(allTargetLines) + targetStaff.lines
      ensures lastLine == if |targetStaff.lines| == 0 then prevLine else Some(targetStaff.lines[|targetStaff.lines| - 1])
    {
      var dskRight := deskew(staff.firstLine.right);
      if prevLine.Some? {
        var prevDskRight := deskew(prevLine.value.info.right);
        dskRight := Point(dskRight.x, dskRight.y + (prevLine.value.y - prevDskRight.y));
      }
      var top := dskRight.y;
      var lines: seq<TargetLine> := [];
      lastLine := prevLine;

      for k := 0 to |staff.lines|
        invariant lines == LinesOf(staff, top, i, j)[..k]
        invariant allTargetLines == old(allTargetLines) + lines
        invariant lastLine == if k == 0 then prevLine else Some(lines[k - 1])
      {
        var targetLine := TargetLine(staff.lines[k], top + (staff.interline * k) as real, i, j);
        allTargetLines := allTargetLines + [targetLine];
        lines := lines + [targetLine];
        lastLine := Some(targetLine);
      }
      assert lines == LinesOf(staff, top, i, j);
      targetStaff := TargetStaff(staff, top, i, lines);
    }

    /** The target system for `system`, its end points shifted to stay aligned with `prevLine`'s system. */
    static method NewSystem(system: SystemFrame, systems: seq<TargetSystem>, prevLine: Option<TargetLine>, deskew: DeskewMap)
      returns (r: TargetSystem)
      requires prevLine.Some? ==> prevLine.value.system < |systems|
      ensures r == SystemOf(system, systems, prevLine, deskew)
    {
      var firstLine := system.firstStaff.firstLine;
      var dskLeft := deskew(firstLine.left);
      var dskRight := deskew(firstLine.right);
      if prevLine.Some? {
        var prevDskRight := deskew(prevLine.value.info.right);
        var prevSystem := systems[prevLine.value.system];
        var shiftX := prevSystem.right - prevDskRight.x;
        var shiftY := prevLine.value.y - prevDskRight.y;
        dskRight := Point(dskRight.x + shiftX, dskRight.y + shiftY);
        dskLeft := Point(dskLeft.x + shiftX, dskLeft.y + shiftY);
      }
      r := TargetSystem(system, dskRight.y, dskLeft.x, dskRight.x, []);
    }

    /**
     * Fills the warp grid: the destination lattice one interline apart that
     * covers the whole sheet (one more node than cells on each axis), the
     * source of every node, and the interleaved source positions.
     */
    method BuildWarpGrid(sheetWidth: nat, sheetHeight: nat, interline: nat, proj: PointProjection, projX: AbscissaProjection)
      requires interline > 0 && |allTargetLines| > 0
      modifies this`dstPoints, this`srcPoints, this`dewarpGrid
      ensures var xNumCells, yNumCells := CellCount(sheetWidth, interline), CellCount(sheetHeight, interline);
        var lattice := GridPoints(yNumCells + 1, xNumCells + 1, interline, interline);
        && dstPoints == old(dstPoints) + lattice
        && srcPoints == old(srcPoints) + SourcesOf(lattice, allTargetLines, proj, projX)
        && dewarpGrid == WarpGrid(0, interline, xNumCells, 0, interline, yNumCells, Interleaved(srcPoints))
    {
      var xStep := interline;
      var xNumCells := CellCount(sheetWidth, xStep);
      var yStep := interline;
      var yNumCells := CellCount(sheetHeight, yStep);

      for ir := 0 to yNumCells + 1
        invariant dstPoints == old(dstPoints) + GridPoints(ir, xNumCells + 1, xStep, yStep)
        invariant srcPoints == old(srcPoints) + SourcesOf(GridPoints(ir, xNumCells + 1, xStep, yStep), allTargetLines, proj, projX)
      {
        ghost var done := GridPoints(ir, xNumCells + 1, xStep, yStep);
        for ic := 0 to xNumCells + 1
          invariant dstPoints == old(dstPoints) + done
          invariant srcPoints == old(srcPoints) + SourcesOf(done, allTargetLines, proj, projX)
          invariant done == GridPoints(ir, xNumCells + 1, xStep, yStep) + GridRow(ir, xNumCells + 1, xStep, yStep)[..ic]
        {
          var dst := Point((ic * xStep) as real, (ir * yStep) as real);
          dstPoints := dstPoints + [dst];
          var src := SourceOf(dst, proj, projX);
          srcPoints := srcPoints + [src];
          SourcesAppend(done, dst, allTargetLines, proj, projX);
          assert GridRow(ir, xNumCells + 1, xStep, yStep)[..ic + 1] == GridRow(ir, xNumCells + 1, xStep, yStep)[..ic] + [dst];
          done := done + [dst];
        }
        assert GridRow(ir, xNumCells + 1, xStep, yStep)[..xNumCells + 1] == GridRow(ir, xNumCells + 1, xStep, yStep);
      }

      var warpPositions := WarpPositions(srcPoints);
      dewarpGrid := WarpGrid(0, xStep, xNumCells, 0, yStep, yNumCells, warpPositions);
    }

    /** The x and y of every source point in turn, written into a fresh array. */
    static method WarpPositions(srcPoints: seq<Point>) returns (positions: seq<real>)
      ensures positions == Interleaved(srcPoints)
    {
      var warpPositions := new real[|srcPoints| * 2];
      var i := 0;
      for k := 0 to |srcPoints|
        invariant i == 2 * k
        invariant warpPositions[..i] == Interleaved(srcPoints[..k])
        modifies warpPositions
      {
        var p := srcPoints[k];
        warpPositions[i] := p.x;
        i := i + 1;
        warpPositions[i] := p.y;
        i := i + 1;
        assert srcPoints[..k + 1][..k] == srcPoints[..k];
        assert warpPositions[..i] == warpPositions[..i - 2] + [p.x, p.y];
      }
      assert srcPoints[..|srcPoints|] == srcPoints;
      assert warpPositions[..] == warpPositions[..i];

      positions := warpPositions[..];
    }

    /**
     * The source of destination point `dst`: scans `allTargetLines` for the
     * first line below `dst` and blends the projections of the lines around it.
     */
    method SourceOf(dst: Point, proj: PointProjection, projX: AbscissaProjection) returns (src: Point)
      requires |allTargetLines| > 0
      ensures src == SourceAt(allTargetLines, dst, proj, projX)
    {
      var dstX, dstY := dst.x, dst.y;
      var northLine: Option<TargetLine> := None;
      var southLine: Option<TargetLine> := None;
      var i := 0;
      while i < |allTargetLines|
        invariant 0 <= i <= |allTargetLines| && southLine.None?
        invariant forall j :: 0 <= j < i ==> allTargetLines[j].y <= dstY
        invariant northLine == if i == 0 then None else Some(allTargetLines[i - 1])
      {
        var line := allTargetLines[i];
        if line.y <= dstY {
          northLine := Some(line);
        } else {
          southLine := Some(line);
          break;
        }
        i := i + 1;
      }
      SouthIndexAt(allTargetLines, dstY, i);

      if northLine.None? {
        src := proj(southLine.value, dst);
        return;
      }
      if southLine.None? {
        src := proj(northLine.value, dst);
        return;
      }
      var srcNorth := projX(northLine.value, dstX);
      var srcSouth := projX(southLine.value, dstX);
      var yRatio := (dstY - northLine.value.y) / (southLine.value.y - northLine.value.y);
      src := Point((1.0 - yRatio) * srcNorth.x + yRatio * srcSouth.x,
                   (1.0 - yRatio) * srcNorth.y + yRatio * srcSouth.y);
    }
  }
}
