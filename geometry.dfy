/** Integer screen rectangles as the game uses them (pygame's Rect), and the
    conversion of a float coordinate into a rectangle coordinate. Derived
    edges and anchor points are computed from x, y, width and height. */
module Geometry {

  datatype Point = Point(x: int, y: int)

  /** An RGB colour triple. */
  datatype Color = Color(red: int, green: int, blue: int)
  {
    predicate IsGrey() { red == green == blue }
  }

  /** Half of an integer, rounded toward zero as C integer division does;
      the rectangle's centre uses it. */
  function Half(n: int): (h: int)
    ensures n >= 0 ==> 0 <= h && h + h <= n < h + h + 2
    ensures n < 0 ==> h <= 0 && n <= h + h < n + 2
  {
    if n >= 0 then n / 2 else -((-n) / 2)
  }

  /** The integer a float coordinate becomes when it is stored in a
      rectangle: its integral part (truncation toward zero). */
  function Truncate(v: real): (n: int)
    ensures v >= 0.0 ==> n as real <= v < n as real + 1.0
    ensures v < 0.0 ==> n as real - 1.0 < v <= n as real
  {
    if v >= 0.0 then v.Floor else -((-v).Floor)
  }

  lemma TruncateOfInteger(n: int)
    ensures Truncate(n as real) == n
  {
  }

  lemma TruncateMonotone(u: real, v: real)
    requires u <= v
    ensures Truncate(u) <= Truncate(v)
  {
  }

  datatype Rect = Rect(x: int, y: int, width: int, height: int)
  {
    function Left(): int { x }
    function Top(): int { y }
    function Right(): int { x + width }
    function Bottom(): int { y + height }
    function CenterX(): int { x + Half(width) }
    function MidTop(): Point { Point(CenterX(), Top()) }
    function MidBottom(): Point { Point(CenterX(), Bottom()) }

    /** The rectangle moved, keeping its size, so that its midtop is p. */
    function WithMidTop(p: Point): (r: Rect)
      ensures r.MidTop() == p
      ensures r.width == width && r.height == height
    {
      Rect(p.x - Half(width), p.y, width, height)
    }

    /** The rectangle moved, keeping its size, so that its midbottom is p. */
    function WithMidBottom(p: Point): (r: Rect)
      ensures r.MidBottom() == p
      ensures r.width == width && r.height == height
    {
      Rect(p.x - Half(width), p.y - height, width, height)
    }
  }
}
