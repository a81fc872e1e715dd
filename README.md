# TargetBuilder: target layout, source lookup and warp grid

This project models in Dafny the core of Audiveris' `TargetBuilder`
(`src/main/omr/sheet/grid/TargetBuilder.java`), the class that dewarps a
scanned music sheet. It:

- rotates the sheet by the opposite of its global slope and chooses a new
  origin and page size (`computeDeskew`);
- walks the detected systems, staves and staff lines in order and builds an
  idealised *target* page: one `TargetSystem` per system, one `TargetStaff`
  per staff, one `TargetLine` per staff line. The lines of a staff are forced
  exactly one interline apart, and a `prevLine` accumulator carries the drift
  of the last placed line forward (`buildTarget`);
- for a destination point of the target page, finds the target lines just
  above (north) and just below (south) it and blends their projections back
  into the original image (`sourceOf`);
- covers the sheet with a lattice of destination points one interline apart,
  computes the source of every node, and flattens the sources into the
  interleaved x/y array that the warp reads (`buildWarpGrid`).

Modules:

- `Geometry` (geometry.dfy): points and an `Option` type.
- `Layout` (layout.dfy): the detected and target records as values, and the
  specification functions `StavesOf`/`TargetOf` of the target layout, with
  the properties of that layout.
- `Locator` (locator.dfy): the specification `SourceAt` of `sourceOf` and
  its properties.
- `Grid` (grid.dfy): the cell counts, the destination lattice and the
  interleaving of positions.
- `Deskew` (deskew.dfy): the branch of `computeDeskew`, and what it achieves
  for a rotation given by its cosine and sine.
- `Builder` (builder.dfy): the class `TargetBuilder`. Its fields are updated
  by methods with loops, as in the source, and each method is proved against
  the specification functions above.

Collaborators that are not visible are parameters:

- the deskew map `deskew(Point2D)` is a `DeskewMap`;
- the two overloads of `TargetLine.sourceOf` are a `PointProjection` and an
  `AbscissaProjection`;
- the rotated sheet corners and the deskew angle are a `Skew`;
- the sheet width, height and interline are `nat` parameters;
- the detected systems are a sequence of `SystemFrame`.

## Model

| member | source | states |
|---|---|---|
| Builder.TargetBuilder.ComputeDeskew | src/main/omr/sheet/grid/TargetBuilder.java:351-362 | The new translation and target size are `FrameOf(skew)`. A non-positive angle gives dx = 0, dy = -topRight.y, width = bottomRight.x, height = bottomLeft.y + dy. A positive angle gives dy = 0, dx = -bottomLeft.x, width = topRight.x + dx, height = bottomRight.y. |
| Builder.TargetBuilder.BuildTarget | src/main/omr/sheet/grid/TargetBuilder.java:222-296 | After the deskew frame is chosen, the target page has that frame's size and the systems of `Target(frames, deskew)`. `allTargetLines` gains exactly that layout's lines, in order. No other field changes. |
| Builder.TargetBuilder.BuildSystems | src/main/omr/sheet/grid/TargetBuilder.java:230-295 | Starting from an empty page and no previous line, the system loop appends the systems and lines of `Target(frames, deskew)`. |
| Builder.TargetBuilder.BuildSystem | src/main/omr/sheet/grid/TargetBuilder.java:233-294 | One pass of the system loop extends the page and the line list from the layout of the first `i` systems to that of the first `i + 1`. It returns the new `prevLine`. |
| Builder.TargetBuilder.NewSystem | src/main/omr/sheet/grid/TargetBuilder.java:234-256 | The new target system is `SystemOf`: the deskewed end points of the first staff's first line, shifted by the previous line's drift when there is one. |
| Builder.TargetBuilder.BuildStaves | src/main/omr/sheet/grid/TargetBuilder.java:260-294 | The staff loop of one system produces the staves, lines and final `prevLine` of `StavesOf`. |
| Builder.TargetBuilder.BuildStaff | src/main/omr/sheet/grid/TargetBuilder.java:261-293 | The staff's top is `StaffTop`. Line `k` is at top + interline * k. The lines are appended to `allTargetLines`. `prevLine` becomes the last of them, or stays unchanged when the staff has no lines. |
| Builder.TargetBuilder.SourceOf | src/main/omr/sheet/grid/TargetBuilder.java:409-446 | For a non-empty line list, the scan with `break` and the three-way case split compute `SourceAt(allTargetLines, dst, ...)`. |
| Builder.TargetBuilder.BuildWarpGrid | src/main/omr/sheet/grid/TargetBuilder.java:301-334 | `dstPoints` gains the row-major lattice of (yNumCells + 1) * (xNumCells + 1) nodes, with the cell counts the ceilings of sheet size over interline. `srcPoints` gains the source of every node, in the same order. The grid holds the step, the counts and the interleaved x/y of all of `srcPoints`. |
| Builder.TargetBuilder.WarpPositions | src/main/omr/sheet/grid/TargetBuilder.java:318-324 | Filling the array by `i++` writes `Interleaved(srcPoints)`. |
| Layout.StavesOf | src/main/omr/sheet/grid/TargetBuilder.java:260-294 | The staff loop yields one target staff per detected staff. The carried `prevLine` is the incoming one or a line of this system. |
| Layout.NextSystem | src/main/omr/sheet/grid/TargetBuilder.java:233-294 | One pass of the system loop adds exactly one target system. The carried `prevLine` still refers to a system already built. |
| Layout.TargetOf | src/main/omr/sheet/grid/TargetBuilder.java:233-295 | The system loop yields one target system per detected system. The carried `prevLine` always refers to a system already built. |
| Layout.StavesLines | src/main/omr/sheet/grid/TargetBuilder.java:276-291 | Within a system, the lines appended are the concatenation of the target staves' line lists. |
| Layout.StavesPrev | src/main/omr/sheet/grid/TargetBuilder.java:292 | Within a system, `prevLine` is the last line appended, or the incoming one if none was appended. |
| Layout.StavesCount | src/main/omr/sheet/grid/TargetBuilder.java:281-293 | Within a system, one target line is appended per detected line. |
| Layout.StavesPrefix | src/main/omr/sheet/grid/TargetBuilder.java:276 | Appending staves never changes the staves already built. |
| Layout.TargetLines | src/main/omr/sheet/grid/TargetBuilder.java:257-293 | Over the page, `allTargetLines` is the concatenation of the systems' lines. |
| Layout.TargetPrev | src/main/omr/sheet/grid/TargetBuilder.java:230-292 | Over the page, `prevLine` is the last element of `allTargetLines`, or `null` while it is empty. |
| Layout.NextPrev | src/main/omr/sheet/grid/TargetBuilder.java:233-294 | One system step preserves "`prevLine` is the last line appended". |
| Layout.TargetCount | src/main/omr/sheet/grid/TargetBuilder.java:233-293 | Over the page, the number of target lines is the number of detected lines. |
| Layout.NextCount | src/main/omr/sheet/grid/TargetBuilder.java:260-293 | One system step appends as many target lines as the system has detected lines. |
| Layout.TargetPrefix | src/main/omr/sheet/grid/TargetBuilder.java:257 | Appending systems never changes the systems already built. |
| Layout.AllLinesInReadingOrder | src/main/omr/sheet/grid/TargetBuilder.java:233-293 | `allTargetLines` is exactly every staff's lines, system after system and staff after staff. Its length is the total number of detected lines. There is one target system per detected system. |
| Layout.SystemAt | src/main/omr/sheet/grid/TargetBuilder.java:233-257 | System `i` of the page, and the systems before it, are as they were when system `i` was built. |
| Layout.StaffAt | src/main/omr/sheet/grid/TargetBuilder.java:260-276 | Staff `j` of system `i` is built from detected staff `j`, with the top given by the `prevLine` left by the staves before it. Each target system has one target staff per detected staff. |
| Layout.LineSpacing | src/main/omr/sheet/grid/TargetBuilder.java:279-289 | Every target staff has one line per detected line. Line `k` is at the staff's top plus `k` interlines and refers back to its detected line, system and staff. Consecutive lines differ by exactly one interline. |
| Layout.SystemPlacement | src/main/omr/sheet/grid/TargetBuilder.java:236-256 | A system sits at its first line's deskewed end points when no line precedes it. Otherwise both end points shift by dx = prevSystem.right - deskew(prevLine right).x and dy = prevLine.y - deskew(prevLine right).y, where prevLine is the last line before it and belongs to an earlier system. |
| Layout.FirstSystemUnshifted | src/main/omr/sheet/grid/TargetBuilder.java:236-256 | The first system is unshifted. |
| Layout.StaffPlacement | src/main/omr/sheet/grid/TargetBuilder.java:261-275 | A staff's top is its first line's deskewed right-end ordinate plus prevLine.y - deskew(prevLine right).y for the last line before it, if any. No horizontal shift is applied. |
| Layout.FirstStaffAtSystemTop | src/main/omr/sheet/grid/TargetBuilder.java:234-275 | When `getStaves()` starts with `getFirstStaff()`, the first staff's top equals the system's top. |
| Locator.SouthIndex | src/main/omr/sheet/grid/TargetBuilder.java:418-426 | The scan stops at the first line lying strictly below `dstY`, or at the end; every line before it lies at or above `dstY`. |
| Locator.North | src/main/omr/sheet/grid/TargetBuilder.java:418-426 | A north line, when there is one, lies at or above `dstY`. |
| Locator.South | src/main/omr/sheet/grid/TargetBuilder.java:418-426 | A south line, when there is one, lies strictly below `dstY`. |
| Locator.Bracketing | src/main/omr/sheet/grid/TargetBuilder.java:418-426 | There is no north line exactly when the first line is below `dstY`. There is no south line exactly when no line is below it. When both exist, north.y <= dstY < south.y and north comes immediately before south in the list, whether or not the list is sorted. |
| Locator.SouthIndexAt | src/main/omr/sheet/grid/TargetBuilder.java:418-426 | The scan stops at `k` exactly when every line before `k` is at or above `dstY` and line `k`, if any, is below it. |
| Locator.SouthIndexSplits | src/main/omr/sheet/grid/TargetBuilder.java:418-426 | On a list ascending in y, every line from the south line on lies below `dstY`. |
| Locator.SourceCases | src/main/omr/sheet/grid/TargetBuilder.java:428-445 | With no north line the result is the south line's projection of `dst`. With no south line it is the north line's projection. With both, it is the blend of both lines' projections of `dstX` by yRatio, and north.y < south.y, so the division is defined. |
| Locator.YRatioRange | src/main/omr/sheet/grid/TargetBuilder.java:441 | Between the bracketing lines, 0 <= yRatio < 1, and yRatio = 0 exactly on the north line. |
| Locator.YRatioMonotonic | src/main/omr/sheet/grid/TargetBuilder.java:441 | yRatio grows with `dstY`, strictly. |
| Locator.BlendBetween | src/main/omr/sheet/grid/TargetBuilder.java:443-445 | The barycentre lies componentwise between its two points. A ratio of 0 gives the first point and a ratio of 1 gives the second. |
| Locator.SourceBetweenProjections | src/main/omr/sheet/grid/TargetBuilder.java:439-445 | In the normal case the source lies componentwise between `srcNorth` and `srcSouth`. It equals `srcNorth` when `dst` lies on the north line. |
| Locator.SourceOnLine | src/main/omr/sheet/grid/TargetBuilder.java:418-445 | On strictly ascending lines, a point lying on line `i` takes that line's abscissa projection. If `i` is the last line, it takes that line's point projection. |
| Grid.CellCount | src/main/omr/sheet/grid/TargetBuilder.java:303-306 | `(int) Math.ceil(a / (double) b)` is the least count `r` with a <= r * b, that is a <= r * b < a + b. |
| Grid.SourcesOf | src/main/omr/sheet/grid/TargetBuilder.java:313-314 | There is one source per destination point. |
| Grid.SourcesAppend | src/main/omr/sheet/grid/TargetBuilder.java:311-314 | The sources of one more destination point extend the earlier sources by that point's source. |
| Grid.GridSize | src/main/omr/sheet/grid/TargetBuilder.java:308-316 | The lattice of `rows` rows of `columns` nodes has rows * columns entries. |
| Grid.GridPointAt | src/main/omr/sheet/grid/TargetBuilder.java:308-311 | Entry ir * columns + ic of the lattice is the node (ic * xStep, ir * yStep). |
| Grid.InterleavedLength | src/main/omr/sheet/grid/TargetBuilder.java:318 | The position array is twice as long as `srcPoints`. |
| Grid.InterleavedAt | src/main/omr/sheet/grid/TargetBuilder.java:318-324 | Slots 2k and 2k + 1 hold the x and y of `srcPoints[k]`. |
| Grid.PositionsRoundTrip | src/main/omr/sheet/grid/TargetBuilder.java:318-324 | Reading the positions back in x/y pairs gives `srcPoints` again. |
| Deskew.CounterClockwiseCorners | src/main/omr/sheet/grid/TargetBuilder.java:354-357 | For a rotation with cos > 0 and sin <= 0, the frame and the four deskewed corners are given explicitly. With the translation applied after the rotation, all of them have non-negative coordinates. |
| Deskew.ClockwiseCorners | src/main/omr/sheet/grid/TargetBuilder.java:358-362 | The same as the previous row, for a rotation with cos > 0 and sin > 0. |
| Deskew.FrameIsBoundingBox | src/main/omr/sheet/grid/TargetBuilder.java:351-364 | Suppose the rotation is by an angle strictly between -pi/2 and pi/2 and the translation is applied after it. Then the chosen target size is the bounding box of the deskewed sheet: every corner lands inside the page, and each side of the page is touched by a corner. |
| Deskew.AsWrittenLeavesFrame | src/main/omr/sheet/grid/TargetBuilder.java:364 | With the translation applied before the rotation, as in the code, a corner of the sheet can land outside the target page. |
| Deskew.AsWrittenMissesFrame | src/main/omr/sheet/grid/TargetBuilder.java:351-364 | With the translation applied before the rotation, as in the code, every non-zero angle misses the frame on a sheet with positive sides. Clockwise, the bottom-left corner lands at abscissa h sin (cos - 1) < 0. Counter-clockwise, the top-right corner lands at ordinate w sin (1 - cos) < 0. |

## Left out

- The slope, `atan` and the `AffineTransform` are not modelled (lines 341-350 and 377-380). The deskew map is a parameter of the layout. `computeDeskew` receives the angle and the rotated corners. The `Deskew` module takes the rotation as a cosine and a sine instead of an angle.
- Floating-point arithmetic: doubles and the `(float)` casts of lines 322-323 are exact reals. `int` products such as `ic * xStep` and `interline * lineIdx` are unbounded integers, so 32-bit overflow is not modelled.
- `TargetLine.sourceOf(Point2D)` and `TargetLine.sourceOf(double)`: their bodies are not part of this model. Both are uninterpreted functions of the line.
- `SystemFrame.getFirstStaff()`, `StaffInfo.getFirstLine()` and `getSpecificScale().interline()`: their bodies are not part of this model. They are fields of the detected records, so the first staff need not be the first of `getStaves()` (see `Layout.FirstStaffAtSystemTop`).
- The target records are values. A target line refers to its system and staff by index rather than by object reference. `targetPage.systems.add(targetSystem)` before the staves are filled is modelled as appending the finished system. Under reference semantics the two give the same page.
- The bodies of `buildTarget`'s system and staff loops are the helper methods `BuildSystems`, `BuildSystem`, `BuildStaves` and `BuildStaff`. They are the same loops, with no change in order.
- `dx` and `dy` are locals of `computeDeskew` that only feed `at.translate`. Here they are fields, because the rest of the transform is not modelled.
- `BuildWarpGrid` and `SourceOf` require a non-empty `allTargetLines`. On an empty list, `sourceOf` dereferences a null `southLine`.
- `BuildWarpGrid` requires a positive interline, which excludes inputs on which `buildWarpGrid` does not terminate. The divisions at lines 304 and 306 are by a `double`, so a zero interline does not throw, and the two axes then behave independently. An axis whose sheet side is positive gets `(int) Math.ceil(+Infinity)`, which is `Integer.MAX_VALUE`, cells. Its inclusive test then never fails, since the counter wraps around: line 308 for rows, when the height is positive, and line 309 for columns, when the width is positive. So `dstPoints` and `srcPoints` grow without end. An axis whose side is 0 gets `(int) Math.ceil(NaN)`, which is 0, cells. Only a 0 x 0 sheet with a zero interline gives a terminating one-node grid, and the model does not cover that case either.
- `buildWarpGrid` sizes the grid from the sheet's width and height, not from the target page size, and the model follows the code. `allTargetLines` is not proved ascending in y, because nothing forces it to be. The scan properties need no sorting, and `Locator.SouthIndexSplits` and `Locator.SourceOnLine` state what sorting would add.
- Not modelled: `dewarpImage` (the JAI warp with bilinear interpolation), `storeImage` (file output), `buildInfo`'s view wiring, `renderSystems`, `renderWarpGrid`, `DewarpedView` and `Constants`. They are image-library calls, I/O and user-interface code.
- `src/main/omr/sig/inter/HeadChordInter.java` is not part of this model. Its logic lives in classes that are not visible.

## Findings

| source | as written | input that shows it | evidently intended | confidence | as-written member | corrected member |
|---|---|---|---|---|---|---|
| src/main/omr/sheet/grid/TargetBuilder.java:364 | `at.translate(dx, dy)` concatenates the translation on the right of the rotation, so `deskew(p)` translates `p` first and rotates it afterwards. | A 5 x 5 sheet rotated by cos 3/5 and sin 4/5 (positive angle): the frame is dx = 4, width = height = 7. The bottom-left corner (0, 5) deskews to (-1.6, 6.2), which is outside the target page. `Deskew.AsWrittenMissesFrame` proves that every non-zero angle misses the frame in the same way. | Rotate first and translate afterwards, so that the frame chosen at lines 351-362 is the bounding box of the deskewed sheet. | not executed | Deskew.AsWrittenLeavesFrame | Deskew.FrameIsBoundingBox |
