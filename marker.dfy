/**
  The marker rectangle the user drags over the video (ObjectTracker.jsx):
  its validity rule, the validity flag the marker effect leaves behind, and
  the CamShift search window a marker starts tracking with.
*/
module Marker {

  /** Integer pixel coordinates on the overlay canvas. */
  datatype Point = Point(x: int, y: int)

  /**
    The condition of the marker effect (lines 65-68): start and end differ in
    x AND in y. A horizontal or vertical line, or a single point, fails it;
    equivalently, the rectangle's four corners are pairwise distinct.
  */
  function NonDegenerate(start: Point, end: Point): (r: bool)
    ensures r <==> |{start, end, Point(start.x, end.y), Point(end.x, start.y)}| == 4
  {
    start.x != end.x && start.y != end.y
  }

  /**
    The validity flag after the marker effect has run on `start`/`end` with
    the drawing flag `drawing`, when it was `valid` before (lines 65-81):
    a non-degenerate marker becomes valid only once drawing has finished;
    while drawing the flag is left as it was; a degenerate marker is invalid.
  */
  function EffectValidity(start: Point, end: Point, drawing: bool, valid: bool): (r: bool)
    ensures r ==> NonDegenerate(start, end)
    ensures !drawing ==> (r <==> NonDegenerate(start, end))
    ensures drawing ==> (r ==> valid)
    ensures drawing && NonDegenerate(start, end) ==> r == valid
  {
    if NonDegenerate(start, end) then
      if !drawing then true else valid
    else false
  }

  /** An axis-aligned rectangle in frame pixels (OpenCV's `cv.Rect`). */
  datatype Window = Window(x: int, y: int, width: int, height: int)

  function Min(a: int, b: int): int {
    if a <= b then a else b
  }

  function Abs(a: int): int {
    if a < 0 then -a else a
  }

  /** `p` lies in `w`, borders included. */
  predicate Covers(w: Window, p: Point) {
    w.x <= p.x <= w.x + w.width && w.y <= p.y <= w.y + w.height
  }

  /**
    The first search window of a tracking session (lines 228-233): the
    marker normalised whatever the drag direction. Its two x edges are the
    two x coordinates of the marker and its two y edges the two y
    coordinates, so its extent is positive exactly for a non-degenerate
    marker.
  */
  function InitialWindow(start: Point, end: Point): (w: Window)
    ensures w.width >= 0 && w.height >= 0
    ensures {w.x, w.x + w.width} == {start.x, end.x}
    ensures {w.y, w.y + w.height} == {start.y, end.y}
    ensures w.width > 0 && w.height > 0 <==> NonDegenerate(start, end)
  {
    Window(Min(start.x, end.x), Min(start.y, end.y), Abs(start.x - end.x), Abs(start.y - end.y))
  }

  /**
    The initial window is the smallest rectangle that covers both marker
    corners: it covers them, and every rectangle of non-negative extent
    that covers them covers it.
  */
  lemma InitialWindowIsBoundingBox(start: Point, end: Point, other: Window)
    requires Covers(other, start) && Covers(other, end)
    ensures Covers(InitialWindow(start, end), start) && Covers(InitialWindow(start, end), end)
    ensures var w := InitialWindow(start, end);
      other.x <= w.x && w.x + w.width <= other.x + other.width &&
      other.y <= w.y && w.y + w.height <= other.y + other.height
  {
  }

  /** Dragging from either corner to the opposite one, along either diagonal, marks the same window. */
  lemma InitialWindowIgnoresDragDirection(start: Point, end: Point)
    ensures InitialWindow(end, start) == InitialWindow(start, end)
    ensures InitialWindow(Point(start.x, end.y), Point(end.x, start.y)) == InitialWindow(start, end)
  {
  }
}
