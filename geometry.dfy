/**
 * Axis-aligned rectangles in screen coordinates (y grows downwards) and the
 * overlap test every hitbox and bounding box goes through
 * (server.js, `checkCollision`).
 */
module Geometry {
  import opened Wrappers

  /** Top-left corner, width and height. */
  datatype Rect = Rect(x: real, y: real, width: real, height: real)

  datatype Point = Point(x: real, y: real)

  predicate HasArea(r: Rect) {
    r.width > 0.0 && r.height > 0.0
  }

  /** `p` lies strictly inside `r` (on no edge). */
  ghost predicate Inside(p: Point, r: Rect) {
    r.x < p.x < r.x + r.width && r.y < p.y < r.y + r.height
  }

  /** The two rectangles share an edge line on one of the axes. */
  predicate EdgesMeet(a: Rect, b: Rect) {
    a.x + a.width == b.x || b.x + b.width == a.x || a.y + a.height == b.y || b.y + b.height == a.y
  }

  /**
   * The overlap test: false when either rectangle is absent (`null` in the
   * source); otherwise strict overlap on both axes, so rectangles that only
   * touch do not collide.
   */
  function CheckCollision(r1: Option<Rect>, r2: Option<Rect>): (hit: bool)
    ensures r1.None? || r2.None? ==> !hit
    ensures r1.Some? && r2.Some? && EdgesMeet(r1.value, r2.value) ==> !hit
  {
    if r1.None? || r2.None? then false
    else
      var a, b := r1.value, r2.value;
      a.x < b.x + b.width && a.x + a.width > b.x && a.y < b.y + b.height && a.y + a.height > b.y
  }

  function Min(a: real, b: real): real { if a <= b then a else b }
  function Max(a: real, b: real): real { if a <= b then b else a }

  /**
   * For rectangles with area, the test answers exactly "is there a point
   * strictly inside both".
   */
  lemma {:induction false} CollisionIffSharedPoint(a: Rect, b: Rect)
    requires HasArea(a) && HasArea(b)
    ensures CheckCollision(Some(a), Some(b)) <==> exists p :: Inside(p, a) && Inside(p, b)
  {
    if CheckCollision(Some(a), Some(b)) {
      var px := (Max(a.x, b.x) + Min(a.x + a.width, b.x + b.width)) / 2.0;
      var py := (Max(a.y, b.y) + Min(a.y + a.height, b.y + b.height)) / 2.0;
      assert Inside(Point(px, py), a) && Inside(Point(px, py), b);
    }
  }

  /** The test does not depend on the order of its arguments. */
  lemma CollisionSymmetric(r1: Option<Rect>, r2: Option<Rect>)
    ensures CheckCollision(r1, r2) == CheckCollision(r2, r1)
  {
  }

  /** Reflection about the vertical line x = 0. */
  function Mirror(r: Rect): (m: Rect)
    ensures m.width == r.width && m.height == r.height && m.y == r.y
    ensures m.x + m.width == -r.x
  {
    Rect(-(r.x + r.width), r.y, r.width, r.height)
  }

  /** Reflecting both rectangles does not change whether they collide. */
  lemma MirrorKeepsCollision(a: Rect, b: Rect)
    ensures CheckCollision(Some(Mirror(a)), Some(Mirror(b))) == CheckCollision(Some(a), Some(b))
  {
  }
}
