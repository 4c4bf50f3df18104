// Core Graphics value types (CGPoint, CGSize, CGRect) with coordinates as reals,
// plus the few Foundation/UIKit values the core passes around as plain records.
module Geometry {

  datatype Point = Point(x: real, y: real)

  datatype Size = Size(width: real, height: real)

  datatype Rect = Rect(origin: Point, size: Size) {
    function Width(): real { size.width }
    function Height(): real { size.height }
    function MinX(): real { origin.x }
    function MinY(): real { origin.y }

    /** CGRectGetMidX / CGRectGetMidY */
    function Mid(): (p: Point)
      ensures p.x - origin.x == size.width / 2.0
      ensures p.y - origin.y == size.height / 2.0
    {
      Point(origin.x + size.width / 2.0, origin.y + size.height / 2.0)
    }
  }

  /** A size with both sides positive: one the core may divide by. */
  predicate Proper(s: Size)
  {
    s.width > 0.0 && s.height > 0.0
  }

  /** CGRectMake(x, y, w, h) */
  function MakeRect(x: real, y: real, w: real, h: real): Rect
  {
    Rect(Point(x, y), Size(w, h))
  }

  const ZeroRect: Rect := MakeRect(0.0, 0.0, 0.0, 0.0)

  /** A UIImage as far as the core looks at it: its size and an opaque content token. */
  datatype Image = Image(size: Size, content: nat)

  /** A UIFont as far as the core handles it: an opaque value. */
  datatype Font = Font(name: string, pointSize: real)

  /** A UIColor as an opaque value. */
  datatype Color = Color(red: real, green: real, blue: real, alpha: real)

  function Max(a: real, b: real): real { if a >= b then a else b }
  function Min(a: real, b: real): real { if a <= b then a else b }
  function Abs(n: int): nat { if n < 0 then -n else n }
}
