// NTImageShadeEffect without the drawing: which polygon each shade shape names, and the
// closed polyline that pathFromPoints emits into a graphics context.
module ShadeEffect {
  import opened Geometry

  datatype ShadeShape =
    | Full | Top | Bottom | Left | Right
    | TriangleTopLeft | TriangleTopRight | TriangleBottomLeft | TriangleBottomRight
    | SquareTopLeft | SquareTopRight | SquareBottomRight | SquareBottomLeft
  {
    predicate IsTriangle()
    {
      TriangleTopLeft? || TriangleTopRight? || TriangleBottomLeft? || TriangleBottomRight?
    }

    predicate IsSquare()
    {
      SquareTopLeft? || SquareTopRight? || SquareBottomRight? || SquareBottomLeft?
    }
  }

  /** Lies in the closed rectangle [0, width] x [0, height]. */
  predicate Inside(p: Point, size: Size)
  {
    0.0 <= p.x <= size.width && 0.0 <= p.y <= size.height
  }

  /** The nine reference points of an image of the given size. */
  function TopLeftOf(size: Size): Point { Point(0.0, 0.0) }
  function TopRightOf(size: Size): Point { Point(size.width, 0.0) }
  function BottomLeftOf(size: Size): Point { Point(0.0, size.height) }
  function BottomRightOf(size: Size): Point { Point(size.width, size.height) }
  function CenterOf(size: Size): Point { Point(size.width / 2.0, size.height / 2.0) }
  function CenterTopOf(size: Size): Point { Point(size.width / 2.0, 0.0) }
  function CenterLeftOf(size: Size): Point { Point(0.0, size.height / 2.0) }
  function CenterRightOf(size: Size): Point { Point(size.width, size.height / 2.0) }
  function CenterBottomOf(size: Size): Point { Point(size.width / 2.0, size.height) }

  /** The four corners of the image. */
  function Corners(size: Size): set<Point>
  {
    {TopLeftOf(size), TopRightOf(size), BottomLeftOf(size), BottomRightOf(size)}
  }

  /** The corner list createPath passes to pathFromPoints for a shape. */
  function CornerPoints(shape: ShadeShape, size: Size): (pts: seq<Point>)
    ensures |pts| == if shape.IsTriangle() then 3 else 4
    ensures size.width >= 0.0 && size.height >= 0.0 ==>
              forall i :: 0 <= i < |pts| ==> Inside(pts[i], size)
    ensures shape.IsTriangle() ==> forall i :: 0 <= i < |pts| ==> pts[i] in Corners(size)
    ensures shape.IsSquare() ==> CenterOf(size) in pts
  {
    var tl, tr, bl, br := TopLeftOf(size), TopRightOf(size), BottomLeftOf(size), BottomRightOf(size);
    var c, cT, cL, cR, cB := CenterOf(size), CenterTopOf(size), CenterLeftOf(size),
                             CenterRightOf(size), CenterBottomOf(size);
    match shape
    case Full => [tl, tr, br, bl]
    case Top => [tl, tr, cR, cL]
    case Bottom => [cL, cR, br, bl]
    case Left => [tl, cT, cB, bl]
    case Right => [cT, tr, br, cB]
    case TriangleTopLeft => [tl, tr, bl]
    case TriangleTopRight => [tl, tr, br]
    case TriangleBottomLeft => [tl, br, bl]
    case TriangleBottomRight => [bl, tr, br]
    case SquareTopLeft => [tl, cT, c, cL]
    case SquareTopRight => [cT, tr, cR, c]
    case SquareBottomRight => [c, cR, br, cB]
    case SquareBottomLeft => [cL, c, cB, bl]
  }

  /** Full is the one shape whose points are exactly the four corners. */
  lemma FullUsesAllCorners(shape: ShadeShape, size: Size)
    requires size.width > 0.0 && size.height > 0.0
    ensures (set i | 0 <= i < |CornerPoints(shape, size)| :: CornerPoints(shape, size)[i]) == Corners(size)
            <==> shape == Full
  {
    var pts := CornerPoints(shape, size);
    var s := set i | 0 <= i < |pts| :: pts[i];
    if shape == Full {
      assert pts[0] == TopLeftOf(size) && pts[1] == TopRightOf(size);
      assert pts[2] == BottomRightOf(size) && pts[3] == BottomLeftOf(size);
      assert s == Corners(size);
    } else {
      assert CornerPoints(Full, size)[3] == BottomLeftOf(size);
      if shape.IsTriangle() {
        // three points cannot make up four distinct corners
        var missing := match shape
          case TriangleTopLeft => BottomRightOf(size)
          case TriangleTopRight => BottomLeftOf(size)
          case TriangleBottomLeft => TopRightOf(size)
          case _ => TopLeftOf(size);
        assert missing in Corners(size);
        assert missing !in s;
      } else {
        // every other shape has a midpoint among its points
        var m := match shape
          case Top | SquareTopRight => pts[2]
          case Bottom | Left | SquareTopLeft => pts[1]
          case Right | SquareBottomRight | SquareBottomLeft => pts[0]
          case _ => CenterOf(size);
        assert m in s;
        assert 0.0 < size.width / 2.0 < size.width && 0.0 < size.height / 2.0 < size.height;
        assert m.x == size.width / 2.0 || m.y == size.height / 2.0;
        assert m !in Corners(size);
      }
    }
  }

  /** Top and Bottom meet on the horizontal midline, which both have as an edge. */
  lemma TopBottomShareMidline(size: Size)
    requires size.height >= 0.0
    ensures var top, bottom := CornerPoints(Top, size), CornerPoints(Bottom, size);
      && CenterLeftOf(size) in top && CenterRightOf(size) in top
      && CenterLeftOf(size) in bottom && CenterRightOf(size) in bottom
      && (forall p :: p in top ==> p.y <= size.height / 2.0)
      && (forall p :: p in bottom ==> p.y >= size.height / 2.0)
  {
  }

  /** Left and Right meet on the vertical midline, which both have as an edge. */
  lemma LeftRightShareMidline(size: Size)
    requires size.width >= 0.0
    ensures var left, right := CornerPoints(Left, size), CornerPoints(Right, size);
      && CenterTopOf(size) in left && CenterBottomOf(size) in left
      && CenterTopOf(size) in right && CenterBottomOf(size) in right
      && (forall p :: p in left ==> p.x <= size.width / 2.0)
      && (forall p :: p in right ==> p.x >= size.width / 2.0)
  {
  }

  // ---------------------------------------------------------------------------
  // Paths

  /** The Core Graphics path calls pathFromPoints makes. */
  datatype PathCommand = MoveTo(to: Point) | LineTo(to: Point)

  /** A line to each point in order. */
  function LinesTo(pts: seq<Point>): (cmds: seq<PathCommand>)
    ensures |cmds| == |pts|
  {
    if |pts| == 0 then [] else [LineTo(pts[0])] + LinesTo(pts[1..])
  }

  lemma {:induction false} LinesToAt(pts: seq<Point>)
    ensures forall i :: 0 <= i < |pts| ==> LinesTo(pts)[i] == LineTo(pts[i])
  {
    if |pts| > 0 {
      LinesToAt(pts[1..]);
    }
  }

  lemma LinesToSnoc(pts: seq<Point>, p: Point)
    ensures LinesTo(pts + [p]) == LinesTo(pts) + [LineTo(p)]
  {
    LinesToAt(pts);
    LinesToAt(pts + [p]);
  }

  /** The commands of a closed polygon through `pts`: nothing for no points. */
  function ClosedPolyline(pts: seq<Point>): (cmds: seq<PathCommand>)
    ensures |pts| == 0 ==> cmds == []
    ensures |pts| > 0 ==>
      && |cmds| == |pts| + 1
      && cmds[0] == MoveTo(pts[0])
      && (forall i :: 1 <= i < |pts| ==> cmds[i] == LineTo(pts[i]))
      && cmds[|pts|] == LineTo(pts[0])
  {
    if |pts| == 0 then []
    else
      LinesToAt(pts[1..]);
      [MoveTo(pts[0])] + LinesTo(pts[1..]) + [LineTo(pts[0])]
  }

  /** The points a command list visits, in order. */
  function Visited(cmds: seq<PathCommand>): (r: seq<Point>)
    ensures |r| == |cmds|
    ensures forall i :: 0 <= i < |cmds| ==> r[i] == cmds[i].to
  {
    if |cmds| == 0 then [] else [cmds[0].to] + Visited(cmds[1..])
  }

  /** The polyline starts with its only move, visits the points in order and ends where it began. */
  lemma ClosedPolylineVisits(pts: seq<Point>)
    requires |pts| > 0
    ensures Visited(ClosedPolyline(pts)) == pts + [pts[0]]
    ensures var cmds := ClosedPolyline(pts);
      cmds[0].MoveTo? && (forall i :: 0 < i < |cmds| ==> cmds[i].LineTo?)
  {
    var cmds := ClosedPolyline(pts);
    assert forall i :: 0 <= i < |pts| ==> Visited(cmds)[i] == pts[i];
  }

  /** A CGContext as the sequence of path commands added to it. */
  class GraphicsContext {
    var path: seq<PathCommand>

    constructor ()
      ensures path == []
    {
      path := [];
    }
  }

  class ShadeEffectModel {
    var shadeShape: ShadeShape
    var color: Color

    /** init(shape:color:) */
    constructor (shape: ShadeShape, color: Color)
      ensures shadeShape == shape && this.color == color
    {
      shadeShape := shape;
      this.color := color;
    }

    /** pathFromPoints(_:points:): adds the closed polygon through `points` to the context's path. */
    method PathFromPoints(ctx: GraphicsContext, points: seq<Point>)
      modifies ctx
      ensures ctx.path == old(ctx.path) + ClosedPolyline(points)
    {
      if |points| == 0 {
        return;
      }
      ctx.path := ctx.path + [MoveTo(points[0])];
      ghost var start := ctx.path;
      for i := 1 to |points|
        invariant ctx.path == start + LinesTo(points[1..i])
      {
        assert points[1..i + 1] == points[1..i] + [points[i]];
        LinesToSnoc(points[1..i], points[i]);
        ctx.path := ctx.path + [LineTo(points[i])];
      }
      assert points[1..|points|] == points[1..];
      ctx.path := ctx.path + [LineTo(points[0])];
      assert ctx.path == old(ctx.path) + ([MoveTo(points[0])] + LinesTo(points[1..]) + [LineTo(points[0])]);
    }

    /** createPath(_:size:): the shape's polygon; without a context nothing is drawn. */
    method CreatePath(ctx: GraphicsContext?, size: Size)
      modifies ctx
      ensures ctx != null ==> ctx.path == old(ctx.path) + ClosedPolyline(CornerPoints(shadeShape, size))
    {
      if ctx == null {
        return;
      }
      PathFromPoints(ctx, CornerPoints(shadeShape, size));
    }
  }
}
