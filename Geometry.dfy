/** Plain values shared by the drawing surface, the shapes and the resize adorner:
    points and sizes in canvas pixels, and lengths that may still be unset. */
module Geometry {

  /** A position in the canvas's own coordinate space, in pixels. */
  datatype Point = Point(x: real, y: real)

  /** A width and a height in pixels; the framework refuses negative sizes. */
  datatype Size = Size(width: real, height: real)

  /** A framework length that may be NaN: `Unset` is the "size to content" value a
      freshly created element carries until someone assigns it, `Px(v)` a set value. */
  datatype Dim = Unset | Px(v: real)

  function Max(a: real, b: real): (m: real)
    ensures m >= a && m >= b && (m == a || m == b)
  {
    if a >= b then a else b
  }

  function Min(a: real, b: real): (m: real)
    ensures m <= a && m <= b && (m == a || m == b)
  {
    if a <= b then a else b
  }

  /** The clamp the move gesture applies to each coordinate: negative becomes 0,
      there is no upper bound. */
  function ClampAtZero(v: real): (c: real)
    ensures c >= 0.0
    ensures v >= 0.0 ==> c == v
    ensures v < 0.0 ==> c == 0.0
  {
    if v < 0.0 then 0.0 else v
  }
}
