/** Qt's geometric value types and the two real-to-integer conversions the
    viewport controller relies on. Qt's float and qreal arithmetic is taken
    as exact real arithmetic. */
module Numeric {

  /** A QVector2D or a QPointF: a pair of reals. */
  datatype Vec = Vec(x: real, y: real)

  /** A QPoint: a pair of integers (document offsets are QPoints). */
  datatype Point = Point(x: int, y: int)

  const Zero: Vec := Vec(0.0, 0.0)

  function Sub(a: Vec, b: Vec): Vec {
    Vec(a.x - b.x, a.y - b.y)
  }

  function ToVec(p: Point): Vec {
    Vec(p.x as real, p.y as real)
  }

  /** C++'s implicit floating-point to int conversion, as in
      `QPoint(position.x(), position.y())`: truncation toward zero. */
  function Trunc(r: real): (t: int)
    ensures 0.0 <= r ==> t as real <= r < t as real + 1.0
    ensures r < 0.0 ==> t as real - 1.0 < r <= t as real
  {
    if r >= 0.0 then r.Floor else -((-r).Floor)
  }

  /** qRound, which QPointF::toPoint uses: round to nearest, halves upward. */
  function Round(r: real): (t: int)
    ensures r - 0.5 < t as real <= r + 0.5
  {
    (r + 0.5).Floor
  }

  function RoundVec(v: Vec): Point {
    Point(Round(v.x), Round(v.y))
  }
}
