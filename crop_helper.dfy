// NTCropHelper.scale(_:toPoint:withScale:) on a path modelled as its non-empty list of vertices:
// the path is moved so that its bounding box starts at the origin, scaled, then moved to `point`.
module CropHelper {
  import opened Geometry

  /** A UIBezierPath made of straight segments, as the points it passes through. */
  type Path = p: seq<Point> | |p| > 0 witness [Point(0.0, 0.0)]

  function Xs(path: seq<Point>): (r: seq<real>)
    ensures |r| == |path| && forall i :: 0 <= i < |path| ==> r[i] == path[i].x
  {
    if |path| == 0 then [] else [path[0].x] + Xs(path[1..])
  }

  function Ys(path: seq<Point>): (r: seq<real>)
    ensures |r| == |path| && forall i :: 0 <= i < |path| ==> r[i] == path[i].y
  {
    if |path| == 0 then [] else [path[0].y] + Ys(path[1..])
  }

  /** The least element. */
  function MinOf(xs: seq<real>): real
    requires |xs| > 0
  {
    if |xs| == 1 then xs[0]
    else
      var rest := MinOf(xs[1..]);
      if xs[0] <= rest then xs[0] else rest
  }

  /** The greatest element. */
  function MaxOf(xs: seq<real>): real
    requires |xs| > 0
  {
    if |xs| == 1 then xs[0]
    else
      var rest := MaxOf(xs[1..]);
      if xs[0] >= rest then xs[0] else rest
  }

  /** MinOf is below every element and equal to one of them. */
  lemma {:induction false} MinOfLeast(xs: seq<real>)
    requires |xs| > 0
    ensures forall i :: 0 <= i < |xs| ==> MinOf(xs) <= xs[i]
    ensures exists i :: 0 <= i < |xs| && xs[i] == MinOf(xs)
  {
    if |xs| > 1 {
      MinOfLeast(xs[1..]);
      assert forall i :: 1 <= i < |xs| ==> xs[1..][i - 1] == xs[i];
      var j :| 0 <= j < |xs[1..]| && xs[1..][j] == MinOf(xs[1..]);
      if xs[0] <= MinOf(xs[1..]) {
        assert xs[0] == MinOf(xs);
      } else {
        assert xs[j + 1] == MinOf(xs);
      }
    } else {
      assert xs[0] == MinOf(xs);
    }
  }

  /** MaxOf is above every element and equal to one of them. */
  lemma {:induction false} MaxOfGreatest(xs: seq<real>)
    requires |xs| > 0
    ensures forall i :: 0 <= i < |xs| ==> xs[i] <= MaxOf(xs)
    ensures exists i :: 0 <= i < |xs| && xs[i] == MaxOf(xs)
  {
    if |xs| > 1 {
      MaxOfGreatest(xs[1..]);
      assert forall i :: 1 <= i < |xs| ==> xs[1..][i - 1] == xs[i];
      var j :| 0 <= j < |xs[1..]| && xs[1..][j] == MaxOf(xs[1..]);
      if xs[0] >= MaxOf(xs[1..]) {
        assert xs[0] == MaxOf(xs);
      } else {
        assert xs[j + 1] == MaxOf(xs);
      }
    } else {
      assert xs[0] == MaxOf(xs);
    }
  }

  /** UIBezierPath.bounds: the smallest rectangle holding every vertex. */
  function Bounds(path: Path): Rect
  {
    var minX, minY := MinOf(Xs(path)), MinOf(Ys(path));
    Rect(Point(minX, minY), Size(MaxOf(Xs(path)) - minX, MaxOf(Ys(path)) - minY))
  }

  /** Every vertex lies in the bounding box, and each of its four sides passes through a vertex. */
  lemma BoundsTight(path: Path)
    ensures var r := Bounds(path);
      && (forall i :: 0 <= i < |path| ==>
            r.origin.x <= path[i].x <= r.origin.x + r.size.width
            && r.origin.y <= path[i].y <= r.origin.y + r.size.height)
      && (exists i :: 0 <= i < |path| && path[i].x == r.origin.x)
      && (exists i :: 0 <= i < |path| && path[i].x == r.origin.x + r.size.width)
      && (exists i :: 0 <= i < |path| && path[i].y == r.origin.y)
      && (exists i :: 0 <= i < |path| && path[i].y == r.origin.y + r.size.height)
  {
    var xs, ys := Xs(path), Ys(path);
    MinOfLeast(xs);
    MaxOfGreatest(xs);
    MinOfLeast(ys);
    MaxOfGreatest(ys);
    var a :| 0 <= a < |xs| && xs[a] == MinOf(xs);
    var b :| 0 <= b < |xs| && xs[b] == MaxOf(xs);
    var c :| 0 <= c < |ys| && ys[c] == MinOf(ys);
    var d :| 0 <= d < |ys| && ys[d] == MaxOf(ys);
  }

  /** applyTransform with CGAffineTransformMakeTranslation(dx, dy). */
  function Translated(path: Path, dx: real, dy: real): (r: Path)
    ensures |r| == |path|
    ensures forall i :: 0 <= i < |path| ==> r[i] == Point(path[i].x + dx, path[i].y + dy)
  {
    seq(|path|, i requires 0 <= i < |path| => Point(path[i].x + dx, path[i].y + dy))
  }

  /** applyTransform with CGAffineTransformMakeScale(s, s). */
  function Scaled(path: Path, s: real): (r: Path)
    ensures |r| == |path|
    ensures forall i :: 0 <= i < |path| ==> r[i] == Point(path[i].x * s, path[i].y * s)
  {
    seq(|path|, i requires 0 <= i < |path| => Point(path[i].x * s, path[i].y * s))
  }

  /** The three transforms in turn: to the origin by `box`, by `scale`, then to `point`. */
  function TransformedFrom(path: Path, box: Rect, point: Point, scale: real): (r: Path)
    ensures |r| == |path|
    ensures forall i :: 0 <= i < |path| ==>
      r[i] == Point(Affine(path[i].x, box.origin.x, scale, point.x), Affine(path[i].y, box.origin.y, scale, point.y))
  {
    var atOrigin := Translated(path, -box.origin.x, -box.origin.y);
    var resized := Scaled(atOrigin, scale);
    Translated(resized, point.x, point.y)
  }

  /**
   * scale(_:toPoint:withScale:): a transformed copy of the path (the argument is a value and
   * is left as it was); every vertex p goes to (p - bounds.origin) * scale + point.
   */
  function Scale(path: Path, point: Point, scale: real): (r: Path)
    ensures |r| == |path|
    ensures var box := Bounds(path);
      forall i :: 0 <= i < |path| ==>
        r[i] == Point(Affine(path[i].x, box.origin.x, scale, point.x), Affine(path[i].y, box.origin.y, scale, point.y))
  {
    TransformedFrom(path, Bounds(path), point, scale)
  }

  /** Each element mapped through f. */
  function Map(xs: seq<real>, f: real -> real): (r: seq<real>)
    ensures |r| == |xs| && forall i :: 0 <= i < |xs| ==> r[i] == f(xs[i])
  {
    seq(|xs|, i requires 0 <= i < |xs| => f(xs[i]))
  }

  /** f keeps and reflects the order of the reals. */
  ghost predicate Monotone(f: real -> real)
  {
    forall a, b :: a <= b <==> f(a) <= f(b)
  }

  /** An order-preserving map takes the least and greatest elements to the least and greatest. */
  lemma {:induction false} MonotoneExtremes(xs: seq<real>, f: real -> real)
    requires |xs| > 0 && Monotone(f)
    ensures MinOf(Map(xs, f)) == f(MinOf(xs))
    ensures MaxOf(Map(xs, f)) == f(MaxOf(xs))
  {
    if |xs| > 1 {
      assert Map(xs, f)[1..] == Map(xs[1..], f);
      MonotoneExtremes(xs[1..], f);
    }
  }

  lemma MulMonotonic(a: real, b: real, s: real)
    requires s > 0.0
    ensures a <= b <==> a * s <= b * s
  {
    if a <= b {
      assert (b - a) * s >= 0.0;
    } else {
      assert (a - b) * s > 0.0;
    }
  }

  /** Moving by -c, scaling by s, moving by d: what the three transforms do to one coordinate. */
  function Affine(x: real, c: real, s: real, d: real): real
  {
    (x - c) * s + d
  }

  /** The low end goes to d and the span is multiplied by s. */
  lemma AffineSpan(lo: real, hi: real, span: real, s: real, d: real)
    requires span == hi - lo
    ensures Affine(lo, lo, s, d) == d
    ensures Affine(hi, lo, s, d) - Affine(lo, lo, s, d) == span * s
  {
  }

  /** For s > 0 that keeps the order. */
  lemma AffineMonotone(c: real, s: real, d: real)
    requires s > 0.0
    ensures Monotone(x => Affine(x, c, s, d))
  {
    forall a: real, b: real
      ensures a <= b <==> Affine(a, c, s, d) <= Affine(b, c, s, d)
    {
      MulMonotonic(a - c, b - c, s);
    }
  }

  /** One axis of the transform: the least coordinate goes to d and the spread is multiplied by s. */
  lemma AxisExtremes(xs: seq<real>, qs: seq<real>, c: real, span: real, s: real, d: real)
    requires |xs| > 0 && s > 0.0 && c == MinOf(xs) && span == MaxOf(xs) - MinOf(xs)
    requires |qs| == |xs| && forall i :: 0 <= i < |xs| ==> qs[i] == Affine(xs[i], c, s, d)
    ensures MinOf(qs) == d
    ensures MaxOf(qs) - MinOf(qs) == span * s
  {
    var hi := MaxOf(xs);
    assert MinOf(qs) == Affine(c, c, s, d) && MaxOf(qs) == Affine(hi, c, s, d) by {
      var f := x => Affine(x, c, s, d);
      assert qs == Map(xs, f);
      AffineMonotone(c, s, d);
      MonotoneExtremes(xs, f);
    }
    AffineSpan(c, hi, span, s, d);
  }

  /** The x extent of a path whose every x went through the same affine map. */
  lemma AffineImageBoundsX(path: Path, q: Path, box: Rect, point: Point, scale: real)
    requires scale > 0.0 && box == Bounds(path) && |q| == |path|
    requires forall i :: 0 <= i < |path| ==> q[i].x == Affine(path[i].x, box.origin.x, scale, point.x)
    ensures Bounds(q).origin.x == point.x
    ensures Bounds(q).size.width == box.size.width * scale
  {
    AxisExtremes(Xs(path), Xs(q), box.origin.x, box.size.width, scale, point.x);
  }

  /** The y extent of a path whose every y went through the same affine map. */
  lemma AffineImageBoundsY(path: Path, q: Path, box: Rect, point: Point, scale: real)
    requires scale > 0.0 && box == Bounds(path) && |q| == |path|
    requires forall i :: 0 <= i < |path| ==> q[i].y == Affine(path[i].y, box.origin.y, scale, point.y)
    ensures Bounds(q).origin.y == point.y
    ensures Bounds(q).size.height == box.size.height * scale
  {
    AxisExtremes(Ys(path), Ys(q), box.origin.y, box.size.height, scale, point.y);
  }

  /** For a positive scale the new bounding box starts at `point` and is `scale` times as large. */
  lemma ScaleBounds(path: Path, point: Point, scale: real)
    requires scale > 0.0
    ensures var box, r := Bounds(path), Bounds(Scale(path, point, scale));
      && r.origin == point
      && r.size == Size(box.size.width * scale, box.size.height * scale)
  {
    var q := Scale(path, point, scale);
    AffineImageBoundsX(path, q, Bounds(path), point, scale);
    AffineImageBoundsY(path, q, Bounds(path), point, scale);
  }

  /** With scale 1 the path is only moved: by the offset that takes its bounding box to `point`. */
  lemma ScaleByOneTranslates(path: Path, point: Point)
    ensures var box := Bounds(path);
      Scale(path, point, 1.0) == Translated(path, point.x - box.origin.x, point.y - box.origin.y)
    ensures Bounds(Scale(path, point, 1.0)) == Rect(point, Bounds(path).size)
  {
    var box := Bounds(path);
    var r := Scale(path, point, 1.0);
    var t := Translated(path, point.x - box.origin.x, point.y - box.origin.y);
    forall i | 0 <= i < |path|
      ensures r[i] == t[i]
    {
      AffineByOne(path[i].x, box.origin.x, point.x);
      AffineByOne(path[i].y, box.origin.y, point.y);
    }
    assert r == t;
    ScaleBounds(path, point, 1.0);
  }

  lemma AffineByOne(x: real, c: real, d: real)
    ensures Affine(x, c, 1.0, d) == x + (d - c)
  {
  }
}
