/**
 * Integer screen geometry as the XNA framework defines it, and the two C#
 * conversions the widgets rely on: integer division by two and the `(int)`
 * cast of a floating-point value. Both truncate toward zero, unlike Dafny's
 * Euclidean `/` and `.Floor`.
 */
module Geometry {

  datatype Point = Point(x: int, y: int)

  /** An XNA `Rectangle`: the origin (x, y) and the extent (width, height). */
  datatype Rect = Rect(x: int, y: int, width: int, height: int) {

    function Right(): int { x + width }

    function Bottom(): int { y + height }

    function Location(): Point { Point(x, y) }

    /** XNA's `Contains` is half-open: `[x, x + width) × [y, y + height)`. */
    predicate Contains(p: Point) {
      x <= p.x < x + width && y <= p.y < y + height
    }
  }

  /** C# `a / 2` on `int`: the remainder carries the sign of `a`. */
  function HalfTowardZero(a: int): (q: int)
    ensures 0 <= a ==> 0 <= a - 2 * q <= 1
    ensures a < 0 ==> -1 <= a - 2 * q <= 0
  {
    if a >= 0 then a / 2 else -((-a) / 2)
  }

  /** C# `(int)` applied to a floating-point value: truncation toward zero. */
  function TruncateToInt(x: real): (n: int)
    ensures 0.0 <= x ==> n as real <= x < n as real + 1.0
    ensures x < 0.0 ==> n as real - 1.0 < x <= n as real
  {
    if x >= 0.0 then x.Floor else -((-x).Floor)
  }
}
