// Two-dimensional points and rectangles of the UI, over exact reals.
// The original uses f32 vectors; the popup only subtracts and halves them,
// so rounding is not modelled.
module Geometry {

  /** A point or a size, in UI units. */
  datatype Vec2 = Vec2(x: real, y: real)

  const Zero: Vec2 := Vec2(0.0, 0.0)

  function Add(a: Vec2, b: Vec2): Vec2
  {
    Vec2(a.x + b.x, a.y + b.y)
  }

  function Sub(a: Vec2, b: Vec2): Vec2
  {
    Vec2(a.x - b.x, a.y - b.y)
  }

  function Scale(a: Vec2, k: real): Vec2
  {
    Vec2(a.x * k, a.y * k)
  }

  /** An axis-aligned rectangle: top-left corner and extent. */
  datatype Rect = Rect(x: real, y: real, w: real, h: real)

  /** Containment of a point in a rectangle, edges included. */
  predicate Contains(r: Rect, px: real, py: real)
  {
    r.x <= px <= r.x + r.w && r.y <= py <= r.y + r.h
  }
}
