/** Screen geometry shared by the models: points in pixels and the
    `(x1, y1, x2, y2)` areas used for crops. */
module Geometry {

  /** A screen position `(x, y)`. */
  datatype Point = Point(x: int, y: int)

  /** An area `(x1, y1, x2, y2)`: left, top, right, bottom. */
  datatype Area = Area(x1: int, y1: int, x2: int, y2: int)

  predicate InArea(p: Point, a: Area)
  {
    a.x1 <= p.x <= a.x2 && a.y1 <= p.y <= a.y2
  }
}
