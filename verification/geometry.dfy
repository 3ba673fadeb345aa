/**
 * Points, sizes and rectangles as CoreGraphics defines them, over `real`.
 *
 * A rectangle stores a raw origin and a raw size, and the size may be
 * negative. The accessors `MinX`, `MaxX`, `Width`, ... are the
 * *standardised* ones of CGRect: `Width()` is the absolute value of
 * `size.width`, `MinX()` the smaller of the two x edges.
 */
module Geometry {

  datatype Point = Point(x: real, y: real)

  datatype Size = Size(width: real, height: real)

  const Zero := Point(0.0, 0.0)

  function Abs(v: real): (r: real)
    ensures r >= 0.0 && (r == v || r == -v)
  {
    if v < 0.0 then -v else v
  }

  datatype Rect = Rect(origin: Point, size: Size) {

    function MinX(): real { if size.width < 0.0 then origin.x + size.width else origin.x }
    function MaxX(): real { if size.width < 0.0 then origin.x else origin.x + size.width }
    function MinY(): real { if size.height < 0.0 then origin.y + size.height else origin.y }
    function MaxY(): real { if size.height < 0.0 then origin.y else origin.y + size.height }

    /** Standardised width, never negative. */
    function Width(): (w: real)
      ensures w >= 0.0 && w == MaxX() - MinX()
    {
      Abs(size.width)
    }

    /** Standardised height, never negative. */
    function Height(): (h: real)
      ensures h >= 0.0 && h == MaxY() - MinY()
    {
      Abs(size.height)
    }

    function MidX(): real { MinX() + Width() / 2.0 }
    function MidY(): real { MinY() + Height() / 2.0 }

    /** The same region with a non-negative size. */
    function Standardized(): (r: Rect)
      ensures r.size.width >= 0.0 && r.size.height >= 0.0
      ensures r.MinX() == MinX() && r.MaxX() == MaxX() && r.MinY() == MinY() && r.MaxY() == MaxY()
    {
      Rect(Point(MinX(), MinY()), Size(Width(), Height()))
    }

    /**
     * CGRect.contains(_:): the point lies inside the standardised rectangle
     * or on its minimum x or minimum y edge.
     */
    predicate Contains(p: Point) {
      MinX() <= p.x < MaxX() && MinY() <= p.y < MaxY()
    }

    /**
     * CGRect.insetBy(dx:dy:) for growing a rectangle (non-positive insets):
     * the standardised rectangle with every edge moved outwards.
     */
    function InsetBy(dx: real, dy: real): (r: Rect)
      requires dx <= 0.0 && dy <= 0.0
      ensures r.MinX() == MinX() + dx && r.MaxX() == MaxX() - dx
      ensures r.MinY() == MinY() + dy && r.MaxY() == MaxY() - dy
    {
      Rect(Point(MinX() + dx, MinY() + dy), Size(Width() - 2.0 * dx, Height() - 2.0 * dy))
    }
  }

  /** A square of side `s` centred on `c`. */
  function Square(c: Point, s: real): (r: Rect)
    requires s >= 0.0
    ensures r.Width() == s && r.Height() == s
    ensures r.MidX() == c.x && r.MidY() == c.y
  {
    Rect(Point(c.x - s / 2.0, c.y - s / 2.0), Size(s, s))
  }
}
