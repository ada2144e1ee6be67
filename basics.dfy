/** Values shared by every part of the model: an optional value (Python's `None`),
    screen points, rectangles in the (left, top, width, height) form the scripts pass
    around, and mouse drags. */
module Basics {

  datatype Option<+T> = None | Some(value: T)

  /** A screen coordinate in pixels. */
  datatype Point = Point(x: int, y: int)

  /** A region as the scripts store it: (left, top, width, height). */
  datatype Rect = Rect(x: int, y: int, w: int, h: int)

  /** A mouse drag from `start` to `end`. */
  datatype Drag = Drag(start: Point, end: Point)

  /** `p` lies inside `r` (left and top edges included, right and bottom excluded). */
  predicate Inside(p: Point, r: Rect)
  {
    r.x <= p.x < r.x + r.w && r.y <= p.y < r.y + r.h
  }

  function Min(a: int, b: int): int { if a <= b then a else b }

  function Max(a: int, b: int): int { if a >= b then a else b }
}
