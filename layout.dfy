/**
 * The detected page hierarchy (systems, staves, lines) and the idealised
 * target layout that `buildTarget` derives from it.
 *
 * The target records are values; their back-references to the owning
 * system and staff are indices.  The functions below define the layout one
 * system (and within it one staff) at a time, in the order the builder
 * visits them, threading the last appended line (`prevLine`) along.
 */
module Layout {
  import opened Geometry

  /** A detected staff line: its identity and its left and right end points, in the original image. */
  datatype LineInfo = LineInfo(id: nat, left: Point, right: Point)

  /**
   * A detected staff: the line `getFirstLine()` answers, the lines `getLines()`
   * enumerates, and the interline of the staff's specific scale.
   */
  datatype StaffInfo = StaffInfo(firstLine: LineInfo, lines: seq<LineInfo>, interline: int)

  /** A detected system: the staff `getFirstStaff()` answers and the staves `getStaves()` enumerates. */
  datatype SystemFrame = SystemFrame(firstStaff: StaffInfo, staves: seq<StaffInfo>)

  /** An idealised line: its detected line, its ordinate, and the indices of its system and of its staff within that system. */
  datatype TargetLine = TargetLine(info: LineInfo, y: real, system: nat, staff: nat)

  /** An idealised staff: its detected staff, its top ordinate, the index of its system, and its lines. */
  datatype TargetStaff = TargetStaff(info: StaffInfo, top: real, system: nat, lines: seq<TargetLine>)

  /** An idealised system: its detected system, its top, left and right, and its staves. */
  datatype TargetSystem = TargetSystem(info: SystemFrame, top: real, left: real, right: real, staves: seq<TargetStaff>)

  /** The idealised page: its size and its systems. */
  datatype TargetPage = TargetPage(width: real, height: real, systems: seq<TargetSystem>)

  /** The deskew map `deskew(pt)`, that is `at.transform(pt)` with `at` as lines 343 and 364 build it; left abstract. */
  type DeskewMap = Point -> Point

  /** What the builder has produced after some systems: the systems, every line appended, and `prevLine`. */
  datatype Built = Built(systems: seq<TargetSystem>, lines: seq<TargetLine>, prev: Option<TargetLine>)

  /** What the builder has produced within one system after some staves. */
  datatype Staves = Staves(staves: seq<TargetStaff>, lines: seq<TargetLine>, prev: Option<TargetLine>)

  /** `prevLine` (when there is one) belongs to a system already built. */
  predicate Linked(b: Built)
  {
    b.prev.Some? ==> b.prev.value.system < |b.systems|
  }

  /**
   * The target system for `frame`, without its staves: the deskewed end points
   * of its first staff's first line, shifted when a line was appended before by
   * the gap between where that previous line was placed and where it deskews to.
   */
  function SystemOf(frame: SystemFrame, systems: seq<TargetSystem>, prev: Option<TargetLine>, deskew: DeskewMap): TargetSystem
    requires prev.Some? ==> prev.value.system < |systems|
  {
    var dskLeft := deskew(frame.firstStaff.firstLine.left);
    var dskRight := deskew(frame.firstStaff.firstLine.right);
    if prev.Some? then
      var prevDskRight := deskew(prev.value.info.right);
      var dx := systems[prev.value.system].right - prevDskRight.x;
      var dy := prev.value.y - prevDskRight.y;
      TargetSystem(frame, dskRight.y + dy, dskLeft.x + dx, dskRight.x + dx, [])
    else
      TargetSystem(frame, dskRight.y, dskLeft.x, dskRight.x, [])
  }

  /** The top of the target staff for `staff`: the deskewed right end of its first line, shifted vertically only. */
  function StaffTop(staff: StaffInfo, prev: Option<TargetLine>, deskew: DeskewMap): real
  {
    var dskRight := deskew(staff.firstLine.right);
    if prev.Some? then dskRight.y + (prev.value.y - deskew(prev.value.info.right).y) else dskRight.y
  }

  /** The target lines of a staff whose top is `top`, line `k` placed `k` interlines below it. */
  function LinesOf(staff: StaffInfo, top: real, system: nat, index: nat): seq<TargetLine>
  {
    seq(|staff.lines|, k requires 0 <= k < |staff.lines| =>
      TargetLine(staff.lines[k], top + (staff.interline * k) as real, system, index))
  }

  /** The first `n` staves of `frame`, the `system`-th system, with `prev0` the line appended before it. */
  function StavesOf(frame: SystemFrame, system: nat, prev0: Option<TargetLine>, deskew: DeskewMap, n: nat): (r: Staves)
    requires n <= |frame.staves|
    ensures |r.staves| == n
    ensures r.prev == prev0 || (r.prev.Some? && r.prev.value.system == system)
  {
    if n == 0 then Staves([], [], prev0)
    else
      var acc := StavesOf(frame, system, prev0, deskew, n - 1);
      var staff := frame.staves[n - 1];
      var top := StaffTop(staff, acc.prev, deskew);
      var ls := LinesOf(staff, top, system, n - 1);
      Staves(acc.staves + [TargetStaff(staff, top, system, ls)], acc.lines + ls,
             if |ls| == 0 then acc.prev else Some(ls[|ls| - 1]))
  }

  /** `acc` followed by the target system of `frame`, the `system`-th detected system, and its lines. */
  function NextSystem(acc: Built, frame: SystemFrame, system: nat, deskew: DeskewMap): (b: Built)
    requires Linked(acc) && system == |acc.systems|
    ensures |b.systems| == system + 1 && Linked(b)
  {
    var target := SystemOf(frame, acc.systems, acc.prev, deskew);
    var st := StavesOf(frame, system, acc.prev, deskew, |frame.staves|);
    Built(acc.systems + [target.(staves := st.staves)], acc.lines + st.lines, st.prev)
  }

  /** The target layout of the first `n` detected systems. */
  function TargetOf(frames: seq<SystemFrame>, deskew: DeskewMap, n: nat): (b: Built)
    requires n <= |frames|
    ensures |b.systems| == n && Linked(b)
  {
    if n == 0 then Built([], [], None)
    else NextSystem(TargetOf(frames, deskew, n - 1), frames[n - 1], n - 1, deskew)
  }

  /** The whole target layout of a page. */
  function Target(frames: seq<SystemFrame>, deskew: DeskewMap): Built
  {
    TargetOf(frames, deskew, |frames|)
  }

  /** The lines of a sequence of target staves, staff after staff. */
  function StaffLinesOf(staves: seq<TargetStaff>): seq<TargetLine>
  {
    if |staves| == 0 then [] else StaffLinesOf(staves[..|staves| - 1]) + staves[|staves| - 1].lines
  }

  /** The lines of a sequence of target systems, system after system, staff after staff. */
  function PageLinesOf(systems: seq<TargetSystem>): seq<TargetLine>
  {
    if |systems| == 0 then [] else PageLinesOf(systems[..|systems| - 1]) + StaffLinesOf(systems[|systems| - 1].staves)
  }

  /** The number of detected lines in a sequence of staves. */
  function StaffLineCount(staves: seq<StaffInfo>): nat
  {
    if |staves| == 0 then 0 else StaffLineCount(staves[..|staves| - 1]) + |staves[|staves| - 1].lines|
  }

  /** The number of detected lines in a sequence of systems. */
  function PageLineCount(frames: seq<SystemFrame>): nat
  {
    if |frames| == 0 then 0 else PageLineCount(frames[..|frames| - 1]) + StaffLineCount(frames[|frames| - 1].staves)
  }

  // ---------------------------------------------------------------------
  // Shape of the accumulation
  // ---------------------------------------------------------------------

  /** Within one system, the lines appended are the staves' lines, staff after staff. */
  lemma {:induction false} StavesLines(frame: SystemFrame, system: nat, prev0: Option<TargetLine>, deskew: DeskewMap, n: nat)
    requires n <= |frame.staves|
    ensures var s := StavesOf(frame, system, prev0, deskew, n);
      s.lines == StaffLinesOf(s.staves)
  {
    if n > 0 {
      StavesLines(frame, system, prev0, deskew, n - 1);
      var s := StavesOf(frame, system, prev0, deskew, n);
      var acc := StavesOf(frame, system, prev0, deskew, n - 1);
      assert s.staves[..n - 1] == acc.staves;
    }
  }

  /** Within one system, `prevLine` is the last line appended, or the one carried in when none was. */
  lemma {:induction false} StavesPrev(frame: SystemFrame, system: nat, prev0: Option<TargetLine>, deskew: DeskewMap, n: nat)
    requires n <= |frame.staves|
    ensures var s := StavesOf(frame, system, prev0, deskew, n);
      s.prev == (if |s.lines| == 0 then prev0 else Some(s.lines[|s.lines| - 1]))
  {
    if n > 0 {
      StavesPrev(frame, system, prev0, deskew, n - 1);
    }
  }

  /** Within one system, one target line is appended per detected line. */
  lemma {:induction false} StavesCount(frame: SystemFrame, system: nat, prev0: Option<TargetLine>, deskew: DeskewMap, n: nat)
    requires n <= |frame.staves|
    ensures |StavesOf(frame, system, prev0, deskew, n).lines| == StaffLineCount(frame.staves[..n])
  {
    if n > 0 {
      StavesCount(frame, system, prev0, deskew, n - 1);
      assert frame.staves[..n][..n - 1] == frame.staves[..n - 1];
    }
  }

  /** Building more staves leaves the staves already built unchanged. */
  lemma {:induction false} StavesPrefix(frame: SystemFrame, system: nat, prev0: Option<TargetLine>, deskew: DeskewMap, j: nat, n: nat)
    requires j <= n <= |frame.staves|
    ensures StavesOf(frame, system, prev0, deskew, n).staves[..j] == StavesOf(frame, system, prev0, deskew, j).staves
  {
    if j < n {
      StavesPrefix(frame, system, prev0, deskew, j, n - 1);
      var s := StavesOf(frame, system, prev0, deskew, n);
      var acc := StavesOf(frame, system, prev0, deskew, n - 1);
      assert s.staves[..n - 1] == acc.staves;
      assert s.staves[..j] == acc.staves[..j];
    }
  }

  /** Over the page, the lines appended are the systems' lines, system after system. */
  lemma {:induction false} TargetLines(frames: seq<SystemFrame>, deskew: DeskewMap, n: nat)
    requires n <= |frames|
    ensures var b := TargetOf(frames, deskew, n);
      b.lines == PageLinesOf(b.systems)
  {
    if n > 0 {
      TargetLines(frames, deskew, n - 1);
      var frame := frames[n - 1];
      var acc := TargetOf(frames, deskew, n - 1);
      StavesLines(frame, n - 1, acc.prev, deskew, |frame.staves|);
      var b := TargetOf(frames, deskew, n);
      assert b.systems[..n - 1] == acc.systems;
    }
  }

  /** Over the page, `prevLine` is the last line appended, if any. */
  lemma {:induction false} TargetPrev(frames: seq<SystemFrame>, deskew: DeskewMap, n: nat)
    requires n <= |frames|
    ensures var b := TargetOf(frames, deskew, n);
      b.prev == LastOf(b.lines)
  {
    if n > 0 {
      TargetPrev(frames, deskew, n - 1);
      NextPrev(TargetOf(frames, deskew, n - 1), frames[n - 1], n - 1, deskew);
    }
  }

  /** Appending a system keeps `prevLine` the last line appended. */
  lemma NextPrev(acc: Built, frame: SystemFrame, system: nat, deskew: DeskewMap)
    requires Linked(acc) && system == |acc.systems| && acc.prev == LastOf(acc.lines)
    ensures var b := NextSystem(acc, frame, system, deskew);
      b.prev == LastOf(b.lines)
  {
    var st := StavesOf(frame, system, acc.prev, deskew, |frame.staves|);
    StavesPrev(frame, system, acc.prev, deskew, |frame.staves|);
    var b := NextSystem(acc, frame, system, deskew);
    if |st.lines| == 0 {
      assert b.lines == acc.lines;
    } else {
      assert b.lines[|b.lines| - 1] == st.lines[|st.lines| - 1];
    }
  }

  /** Over the page, one target line is appended per detected line. */
  lemma {:induction false} TargetCount(frames: seq<SystemFrame>, deskew: DeskewMap, n: nat)
    requires n <= |frames|
    ensures |TargetOf(frames, deskew, n).lines| == PageLineCount(frames[..n])
  {
    if n > 0 {
      TargetCount(frames, deskew, n - 1);
      NextCount(TargetOf(frames, deskew, n - 1), frames[n - 1], n - 1, deskew);
      assert frames[..n][..n - 1] == frames[..n - 1];
    }
  }

  /** Appending a system appends one target line per detected line of its staves. */
  lemma NextCount(acc: Built, frame: SystemFrame, system: nat, deskew: DeskewMap)
    requires Linked(acc) && system == |acc.systems|
    ensures |NextSystem(acc, frame, system, deskew).lines| == |acc.lines| + StaffLineCount(frame.staves)
  {
    StavesCount(frame, system, acc.prev, deskew, |frame.staves|);
    assert frame.staves[..|frame.staves|] == frame.staves;
  }

  /** Building more systems leaves the systems already built unchanged. */
  lemma {:induction false} TargetPrefix(frames: seq<SystemFrame>, deskew: DeskewMap, j: nat, n: nat)
    requires j <= n <= |frames|
    ensures TargetOf(frames, deskew, n).systems[..j] == TargetOf(frames, deskew, j).systems
  {
    if j < n {
      TargetPrefix(frames, deskew, j, n - 1);
      var b := TargetOf(frames, deskew, n);
      var acc := TargetOf(frames, deskew, n - 1);
      assert b.systems[..n - 1] == acc.systems;
      assert b.systems[..j] == acc.systems[..j];
    }
  }

  // ---------------------------------------------------------------------
  // Properties of the target layout
  // ---------------------------------------------------------------------

  /**
   * `allTargetLines` is every target staff's lines, system after system and
   * staff after staff; there is one target system per detected system, and as
   * many target lines as detected lines.
   */
  lemma AllLinesInReadingOrder(frames: seq<SystemFrame>, deskew: DeskewMap)
    ensures var b := Target(frames, deskew);
      && |b.systems| == |frames|
      && b.lines == PageLinesOf(b.systems)
      && |b.lines| == PageLineCount(frames)
  {
    TargetLines(frames, deskew, |frames|);
    TargetCount(frames, deskew, |frames|);
    assert frames[..|frames|] == frames;
  }

  /** System `i` of the page is the last system of the layout of the first `i + 1` systems. */
  lemma SystemAt(frames: seq<SystemFrame>, deskew: DeskewMap, i: nat)
    requires i < |frames|
    ensures Target(frames, deskew).systems[i] == TargetOf(frames, deskew, i + 1).systems[i]
    ensures Target(frames, deskew).systems[..i] == TargetOf(frames, deskew, i).systems
  {
    TargetPrefix(frames, deskew, i + 1, |frames|);
    TargetPrefix(frames, deskew, i, |frames|);
    assert TargetOf(frames, deskew, |frames|).systems[..i + 1][i] == TargetOf(frames, deskew, |frames|).systems[i];
  }

  /**
   * The target staff `j` of system `i` is built from detected staff `j`, with the
   * top given by `prevLine` as it was after staff `j - 1` of the same system.
   */
  lemma StaffAt(frames: seq<SystemFrame>, deskew: DeskewMap, i: nat, j: nat)
    requires i < |frames| && j < |frames[i].staves|
    ensures var b := Target(frames, deskew);
      var a := TargetOf(frames, deskew, i);
      var s := StavesOf(frames[i], i, a.prev, deskew, j);
      var staff := frames[i].staves[j];
      var top := StaffTop(staff, s.prev, deskew);
      && |b.systems[i].staves| == |frames[i].staves|
      && b.systems[i].staves[j] == TargetStaff(staff, top, i, LinesOf(staff, top, i, j))
      && b.systems[i].staves[..j] == s.staves
  {
    SystemAt(frames, deskew, i);
    var a := TargetOf(frames, deskew, i);
    var n := |frames[i].staves|;
    StavesPrefix(frames[i], i, a.prev, deskew, j + 1, n);
    StavesPrefix(frames[i], i, a.prev, deskew, j, n);
    var full := StavesOf(frames[i], i, a.prev, deskew, n);
    assert full.staves[..j + 1][j] == full.staves[j];
  }

  /**
   * Every target line lies `k` interlines of its own staff below the staff's
   * top, refers back to its detected line, its system and its staff, and the
   * next line of the staff lies exactly one interline lower.
   */
  lemma LineSpacing(frames: seq<SystemFrame>, deskew: DeskewMap, i: nat, j: nat, k: nat)
    requires i < |frames| && j < |frames[i].staves| && k < |frames[i].staves[j].lines|
    ensures |Target(frames, deskew).systems[i].staves| == |frames[i].staves|
    ensures var staff := Target(frames, deskew).systems[i].staves[j];
      && |staff.lines| == |frames[i].staves[j].lines|
      && staff.lines[k] == TargetLine(frames[i].staves[j].lines[k], staff.top + (frames[i].staves[j].interline * k) as real, i, j)
      && (k + 1 < |staff.lines| ==> staff.lines[k + 1].y - staff.lines[k].y == frames[i].staves[j].interline as real)
  {
    StaffAt(frames, deskew, i, j);
  }

  /** The lines appended before staff `j` of system `i`. */
  function LinesBefore(systems: seq<TargetSystem>, i: nat, j: nat): seq<TargetLine>
    requires i < |systems| && j <= |systems[i].staves|
  {
    PageLinesOf(systems[..i]) + StaffLinesOf(systems[i].staves[..j])
  }

  /** The vertical drift of a previously placed line: where it was placed minus where it deskews to. */
  function Drift(prev: Option<TargetLine>, deskew: DeskewMap): real
  {
    if prev.Some? then prev.value.y - deskew(prev.value.info.right).y else 0.0
  }

  /**
   * A system is placed at its first staff's first line, deskewed; when lines
   * were appended before, it is shifted right by the gap between the right of
   * the last line's system and that line's deskewed right end, and down by the
   * gap between the last line's ordinate and its deskewed right end.
   */
  lemma SystemPlacement(frames: seq<SystemFrame>, deskew: DeskewMap, i: nat)
    requires i < |frames|
    ensures var b := Target(frames, deskew);
      var first := frames[i].firstStaff.firstLine;
      var before := PageLinesOf(b.systems[..i]);
      if |before| == 0 then
        && b.systems[i].top == deskew(first.right).y
        && b.systems[i].left == deskew(first.left).x
        && b.systems[i].right == deskew(first.right).x
      else
        var p := before[|before| - 1];
        var q := deskew(p.info.right);
        && p.system < i
        && b.systems[i].top == deskew(first.right).y + (p.y - q.y)
        && b.systems[i].left == deskew(first.left).x + (b.systems[p.system].right - q.x)
        && b.systems[i].right == deskew(first.right).x + (b.systems[p.system].right - q.x)
  {
    SystemAt(frames, deskew, i);
    TargetLines(frames, deskew, i);
    TargetPrev(frames, deskew, i);
  }

  /** The first system of the page is placed exactly at its first line's deskewed end points. */
  lemma FirstSystemUnshifted(frames: seq<SystemFrame>, deskew: DeskewMap)
    requires |frames| > 0
    ensures var s := Target(frames, deskew).systems[0];
      var first := frames[0].firstStaff.firstLine;
      s.top == deskew(first.right).y && s.left == deskew(first.left).x && s.right == deskew(first.right).x
  {
    SystemPlacement(frames, deskew, 0);
  }

  /**
   * A staff's top is its first line's deskewed right-end ordinate plus the
   * drift of the last line appended before it (nothing if there is none); it is
   * never shifted horizontally.
   */
  lemma StaffPlacement(frames: seq<SystemFrame>, deskew: DeskewMap, i: nat, j: nat)
    requires i < |frames| && j < |frames[i].staves|
    ensures |Target(frames, deskew).systems[i].staves| == |frames[i].staves|
    ensures var b := Target(frames, deskew);
      b.systems[i].staves[j].top
        == deskew(frames[i].staves[j].firstLine.right).y + Drift(LastOf(LinesBefore(b.systems, i, j)), deskew)
  {
    var b := Target(frames, deskew);
    var a := TargetOf(frames, deskew, i);
    var s := StavesOf(frames[i], i, a.prev, deskew, j);
    StaffAt(frames, deskew, i, j);
    SystemAt(frames, deskew, i);
    TargetLines(frames, deskew, i);
    TargetPrev(frames, deskew, i);
    StavesLines(frames[i], i, a.prev, deskew, j);
    StavesPrev(frames[i], i, a.prev, deskew, j);
    assert LinesBefore(b.systems, i, j) == a.lines + s.lines;
    LastOfAppend(a.lines, s.lines);
    assert s.prev == LastOf(LinesBefore(b.systems, i, j));
  }

  /** The last element of a concatenation is the second part's, or the first part's when the second is empty. */
  lemma LastOfAppend<T>(u: seq<T>, v: seq<T>)
    ensures LastOf(u + v) == if |v| == 0 then LastOf(u) else LastOf(v)
  {
    if |v| == 0 {
      assert u + v == u;
    }
  }

  /** When `getStaves()` starts with `getFirstStaff()`, the system's first staff sits at the system's top. */
  lemma FirstStaffAtSystemTop(frames: seq<SystemFrame>, deskew: DeskewMap, i: nat)
    requires i < |frames| && |frames[i].staves| > 0 && frames[i].staves[0] == frames[i].firstStaff
    ensures var s := Target(frames, deskew).systems[i];
      |s.staves| > 0 && s.staves[0].top == s.top
  {
    StaffAt(frames, deskew, i, 0);
    SystemAt(frames, deskew, i);
  }
}
