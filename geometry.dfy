/**
 * Axis-aligned rectangles (`SDL_FRect`) and the overlap test the game uses
 * for collisions. Coordinates are exact reals: the model does not follow
 * single-precision rounding.
 */
module Geometry {

  /** An `SDL_FRect`: top-left corner and size, in pixels. */
  datatype Rect = Rect(x: real, y: real, w: real, h: real)

  /** `SDL_FRectEmpty`: a rectangle without area. */
  predicate IsEmpty(r: Rect) {
    r.w <= 0.0 || r.h <= 0.0
  }

  /** The point (px, py) lies in `r`, left and top edges included. */
  predicate Contains(r: Rect, px: real, py: real) {
    r.x <= px < r.x + r.w && r.y <= py < r.y + r.h
  }

  /**
   * `SDL_HasIntersectionF` as SDL2 computes it: empty rectangles never
   * intersect; otherwise each axis is clipped to the common interval, and
   * an interval of zero length (touching edges) does not count.
   */
  function HasIntersection(a: Rect, b: Rect): (r: bool)
    ensures r <==> !IsEmpty(a) && !IsEmpty(b)
                   && a.x < b.x + b.w && b.x < a.x + a.w
                   && a.y < b.y + b.h && b.y < a.y + a.h
  {
    if IsEmpty(a) || IsEmpty(b) then false
    else
      var xMin := if b.x > a.x then b.x else a.x;
      var xMax := if b.x + b.w < a.x + a.w then b.x + b.w else a.x + a.w;
      if xMax <= xMin then false
      else
        var yMin := if b.y > a.y then b.y else a.y;
        var yMax := if b.y + b.h < a.y + a.h then b.y + b.h else a.y + a.h;
        !(yMax <= yMin)
  }
}
