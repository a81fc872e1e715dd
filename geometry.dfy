/** Points, and the optional value that stands for a Java reference that may be null. */
module Geometry {

  /** A Java reference that may be null: `None` is null. */
  datatype Option<T> = None | Some(value: T)

  /** A `Point2D`, with exact real coordinates in place of doubles. */
  datatype Point = Point(x: real, y: real)

  /** The last element of a sequence, if there is one. */
  function LastOf<T>(s: seq<T>): (r: Option<T>)
    ensures r.None? <==> |s| == 0
    ensures r.Some? ==> r.value == s[|s| - 1]
  {
    if |s| == 0 then None else Some(s[|s| - 1])
  }
}
