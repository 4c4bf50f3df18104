// NTCropOverlayView: the shade over a crop view with a hole the shape of the crop path. The
// hole is the crop path scaled to fill a fraction of the overlay while keeping its aspect
// ratio, and centred in the overlay.
module CropOverlay {
  import opened Geometry
  import opened Options
  import opened CropHelper

  // ---------------------------------------------------------------------------
  // Real arithmetic the fill computations need, over plain variables

  lemma DivCancel(a: real, b: real)
    requires b != 0.0
    ensures (a / b) * b == a && b * (a / b) == a
  {
  }

  /** A width and height in the ratio bw : bh give the height back from the width. */
  lemma HeightFromWidth(w: real, h: real, bw: real, bh: real)
    requires bw > 0.0 && w * bh == h * bw
    ensures bh * (w / bw) == h
  {
    calc {
      bh * (w / bw);
      (w * bh) / bw;
      (h * bw) / bw;
      h;
    }
  }

  /** Height fills: the width fh·m·(bw/bh) against the height m·fh keeps bw : bh. */
  lemma HeightFillAspect(fw: real, fh: real, bw: real, bh: real, m: real)
    requires fw > 0.0 && bh > 0.0
    ensures ((fh * m * (bw / bh)) / fw) * fw * bh == m * fh * bw
  {
    var car := bw / bh;
    DivCancel(fh * m * car, fw);
    assert ((fh * m * car) / fw) * fw == fh * m * car;
    DivCancel(bw, bh);
    assert fh * m * car * bh == fh * m * (car * bh);
  }

  /** Width fills: the width m·fw against the height fw·m/(bw/bh) keeps bw : bh. */
  lemma WidthFillAspect(fw: real, fh: real, bw: real, bh: real, m: real)
    requires fh > 0.0 && bw > 0.0 && bh > 0.0
    ensures m * fw * bh == ((fw * m / (bw / bh)) / fh) * fh * bw
  {
    var car := bw / bh;
    assert car > 0.0;
    DivCancel(fw * m / car, fh);
    assert ((fw * m / car) / fh) * fh == fw * m / car;
    DivCancel(bw, bh);
    assert (fw * m / car) * bw == (fw * m / car) * (car * bh);
    DivCancel(fw * m, car);
  }

  lemma PositiveFactor(a: real, b: real, c: real)
    requires b > 0.0 && c > 0.0 && a * b == c
    ensures a > 0.0
  {
  }

  // ---------------------------------------------------------------------------
  // The fill of scaleCropPath

  /**
   * The branch scaleCropPath takes for a frame and a crop bounding box: "height fills" when
   * the crop's width/height exceeds the frame's height/width (the second ratio is inverted).
   */
  predicate HeightFillsAsWritten(frame: Size, box: Size)
    requires Proper(frame) && Proper(box)
  {
    box.width / box.height > frame.height / frame.width
  }

  /**
   * What scaleCropPath computes for scaledCropWidth × scaledCropHeight: the crop's aspect
   * ratio, with the side its comparison picks at maxFill of the frame.
   */
  predicate FillsAsWritten(frame: Size, box: Size, maxFill: real, s: Size)
    requires Proper(frame) && Proper(box)
  {
    && s.width * box.height == s.height * box.width
    && if HeightFillsAsWritten(frame, box) then s.height == maxFill * frame.height
       else s.width == maxFill * frame.width
  }

  /** The fill determines the size: two sizes that both satisfy it are equal. */
  lemma FillsAsWrittenUnique(frame: Size, box: Size, maxFill: real, s: Size, t: Size)
    requires Proper(frame) && Proper(box)
    requires FillsAsWritten(frame, box, maxFill, s) && FillsAsWritten(frame, box, maxFill, t)
    ensures s == t
  {
    if HeightFillsAsWritten(frame, box) {
      assert s.width * box.height == t.width * box.height;
      assert (s.width - t.width) * box.height == 0.0;
    } else {
      assert s.height * box.width == t.height * box.width;
      assert (s.height - t.height) * box.width == 0.0;
    }
  }

  /** With a positive fill both sides are positive. */
  lemma FillPositive(frame: Size, box: Size, maxFill: real, s: Size)
    requires Proper(frame) && Proper(box) && maxFill > 0.0
    requires FillsAsWritten(frame, box, maxFill, s)
    ensures Proper(s)
  {
    if HeightFillsAsWritten(frame, box) {
      assert s.height * box.width > 0.0;
      PositiveFactor(s.width, box.height, s.height * box.width);
    } else {
      assert s.width * box.height > 0.0;
      PositiveFactor(s.height, box.width, s.width * box.height);
    }
  }

  /** The height branch of scaleCropPath: the height at maxFill, the width from the crop's aspect ratio. */
  lemma HeightBranchFills(frame: Size, box: Size, maxFill: real)
    requires Proper(frame) && Proper(box) && HeightFillsAsWritten(frame, box)
    ensures FillsAsWritten(frame, box, maxFill,
      Size(((frame.height * maxFill * (box.width / box.height)) / frame.width) * frame.width, maxFill * frame.height))
  {
    HeightFillAspect(frame.width, frame.height, box.width, box.height, maxFill);
  }

  /** The width branch of scaleCropPath: the width at maxFill, the height from the crop's aspect ratio. */
  lemma WidthBranchFills(frame: Size, box: Size, maxFill: real)
    requires Proper(frame) && Proper(box) && !HeightFillsAsWritten(frame, box)
    ensures FillsAsWritten(frame, box, maxFill,
      Size(maxFill * frame.width, ((frame.width * maxFill / (box.width / box.height)) / frame.height) * frame.height))
  {
    WidthFillAspect(frame.width, frame.height, box.width, box.height, maxFill);
  }

  /**
   * The size scaleCropPath computes: the crop's and the overlay's aspect ratios decide which
   * side fills at maxFill, the other side's multiplier keeps the crop's aspect ratio, and each
   * multiplier scales the overlay's side.
   */
  method ScaledCropSize(frame: Size, box: Size, maxFill: real) returns (width: real, height: real)
    requires Proper(frame) && Proper(box)
    ensures FillsAsWritten(frame, box, maxFill, Size(width, height))
  {
    var cropAspectRatio := box.width / box.height;
    var viewAspectRatio := frame.height / frame.width;
    var widthMultiplier, heightMultiplier;
    if cropAspectRatio > viewAspectRatio {
      // the overlay's height fills
      heightMultiplier := maxFill;
      widthMultiplier := (frame.height * heightMultiplier * cropAspectRatio) / frame.width;
      width, height := widthMultiplier * frame.width, heightMultiplier * frame.height;
      HeightBranchFills(frame, box, maxFill);
    } else {
      // the overlay's width fills
      widthMultiplier := maxFill;
      heightMultiplier := (frame.width * widthMultiplier / cropAspectRatio) / frame.height;
      width, height := widthMultiplier * frame.width, heightMultiplier * frame.height;
      WidthBranchFills(frame, box, maxFill);
    }
  }

  /** On a square frame a crop wider than tall takes the height branch and overflows the width. */
  lemma AsWrittenOverflowsSquare(side: real, box: Size, maxFill: real, s: Size)
    requires side > 0.0 && box.width > box.height > 0.0 && maxFill > 0.0
    requires FillsAsWritten(Size(side, side), box, maxFill, s)
    ensures s.width > maxFill * side
  {
    var frame := Size(side, side);
    assert box.width / box.height > 1.0;
    assert side / side == 1.0;
    assert HeightFillsAsWritten(frame, box);
    var k := maxFill * side;
    assert k > 0.0 && s.height == k;
    assert s.width * box.height == k * box.width;
    MulStrict(box.width, box.height, k);
    CancelPositive(s.width, k, box.height);
  }

  lemma MulStrict(a: real, b: real, k: real)
    requires a > b && k > 0.0
    ensures k * a > k * b
  {
  }

  lemma CancelPositive(a: real, b: real, c: real)
    requires c > 0.0 && a * c > b * c
    ensures a > b
  {
  }

  /** The example: a 200×100 crop on a 100×100 overlay is scaled to 160×80, wider than the overlay. */
  lemma AsWrittenOverflowExample(s: Size)
    requires FillsAsWritten(Size(100.0, 100.0), Size(200.0, 100.0), 0.8, s)
    ensures s == Size(160.0, 80.0) && s.width > 100.0
  {
    assert HeightFillsAsWritten(Size(100.0, 100.0), Size(200.0, 100.0));
  }

  /** The comparison the comments describe: the height fills when the crop is relatively taller. */
  predicate HeightFills(frame: Size, box: Size)
    requires Proper(frame) && Proper(box)
  {
    box.width / box.height <= frame.width / frame.height
  }

  /** The fill with the intended comparison. */
  predicate FillsIntended(frame: Size, box: Size, maxFill: real, s: Size)
    requires Proper(frame) && Proper(box)
  {
    && s.width * box.height == s.height * box.width
    && if HeightFills(frame, box) then s.height == maxFill * frame.height
       else s.width == maxFill * frame.width
  }

  /** The corrected scaleCropPath computation: the same multipliers behind the intended comparison. */
  function IntendedScaledSize(frame: Size, box: Size, maxFill: real): (r: Size)
    requires Proper(frame) && Proper(box)
    ensures FillsIntended(frame, box, maxFill, r)
  {
    var cropAspectRatio := box.width / box.height;
    if HeightFills(frame, box) then
      HeightFillAspect(frame.width, frame.height, box.width, box.height, maxFill);
      Size((frame.height * maxFill * cropAspectRatio) / frame.width * frame.width, maxFill * frame.height)
    else
      WidthFillAspect(frame.width, frame.height, box.width, box.height, maxFill);
      Size(maxFill * frame.width, (frame.width * maxFill / cropAspectRatio) / frame.height * frame.height)
  }

  /**
   * The intended fill stays within maxFill of the overlay on both sides and reaches it on one:
   * the crop grows until it meets the height or the width, whichever comes first.
   */
  lemma IntendedFillFits(frame: Size, box: Size, maxFill: real, r: Size)
    requires Proper(frame) && Proper(box) && maxFill >= 0.0
    requires FillsIntended(frame, box, maxFill, r)
    ensures r.width <= maxFill * frame.width && r.height <= maxFill * frame.height
    ensures r.width == maxFill * frame.width || r.height == maxFill * frame.height
  {
    var car := box.width / box.height;
    DivCancel(box.width, box.height);
    DivCancel(frame.width, frame.height);
    if HeightFills(frame, box) {
      assert car * frame.height <= frame.width;
      assert r.width * box.height == maxFill * frame.height * (car * box.height);
      assert r.width == maxFill * car * frame.height;
      assert maxFill * (car * frame.height) <= maxFill * frame.width;
    } else {
      assert car * frame.height > frame.width;
      assert r.height * (car * box.height) == maxFill * frame.width * box.height;
      assert r.height * car == maxFill * frame.width;
      assert r.height * car <= maxFill * frame.height * car;
    }
  }

  /** The scaled crop path: the crop path at the origin, scaled by scaledWidth / bounds.width. */
  function ScaledPath(cropPath: Path, scaledWidth: real): Path
    requires Bounds(cropPath).size.width != 0.0
  {
    Scale(cropPath, Point(0.0, 0.0), scaledWidth / Bounds(cropPath).size.width)
  }

  /** Scaled to width w, a path whose box has the aspect ratio of w × h is w × h at the origin. */
  lemma ScaledToWidth(cropPath: Path, s: Size)
    requires Proper(Bounds(cropPath).size) && s.width > 0.0
    requires s.width * Bounds(cropPath).size.height == s.height * Bounds(cropPath).size.width
    ensures Bounds(ScaledPath(cropPath, s.width)) == Rect(Point(0.0, 0.0), s)
  {
    var w, h := s.width, s.height;
    var box := Bounds(cropPath).size;
    var scale := w / box.width;
    assert scale > 0.0;
    ScaleBounds(cropPath, Point(0.0, 0.0), scale);
    DivCancel(w, box.width);
    HeightFromWidth(w, h, box.width, box.height);
  }

  /** A scaled path moved with scale 1 keeps its size and its bounding box starts at `point`. */
  lemma PlacedPathBounds(scaled: Path, point: Point)
    ensures Bounds(Scale(scaled, point, 1.0)) == Rect(point, Bounds(scaled).size)
  {
    ScaleByOneTranslates(scaled, point);
  }

  // ---------------------------------------------------------------------------
  // The view

  class CropOverlayView {
    var frame: Rect
    var maxFillPercent: real
    var scaledCropPath: Option<Path>
    var scaledCropWidth: Option<real>
    var scaledCropHeight: Option<real>
    var cropPath: Option<Path>   // `_cropPath`
    var oldFrame: Rect

    /**
     * Nothing divides by zero: with a crop path, a proper frame and a proper bounding box
     * (without one, scaleCropPath divides by neither).
     */
    predicate Measurable()
      reads this
    {
      cropPath.Some? ==> Proper(frame.size) && Proper(Bounds(cropPath.value).size)
    }

    /** init(frame:): fill 80%, no crop path, nothing scaled. */
    constructor (frame: Rect)
      ensures this.frame == frame && maxFillPercent == 0.8 && oldFrame == ZeroRect
      ensures cropPath.None? && scaledCropPath.None? && scaledCropWidth.None? && scaledCropHeight.None?
    {
      this.frame := frame;
      maxFillPercent := 0.8;
      scaledCropPath := None;
      scaledCropWidth := None;
      scaledCropHeight := None;
      cropPath := None;
      oldFrame := ZeroRect;
    }

    /** cropRect: the scaled crop's size, centred in the overlay; nil unless both dimensions are known. */
    function CropRect(): (r: Option<Rect>)
      reads this
      ensures r.None? <==> scaledCropWidth.None? || scaledCropHeight.None?
      ensures r.Some? ==>
        && r.value.size == Size(scaledCropWidth.value, scaledCropHeight.value)
        && r.value.origin.x + r.value.size.width / 2.0 == frame.size.width / 2.0
        && r.value.origin.y + r.value.size.height / 2.0 == frame.size.height / 2.0
    {
      if scaledCropWidth.None? || scaledCropHeight.None? then None
      else
        var x := frame.size.width / 2.0 - scaledCropWidth.value / 2.0;
        var y := frame.size.height / 2.0 - scaledCropHeight.value / 2.0;
        Some(MakeRect(x, y, scaledCropWidth.value, scaledCropHeight.value))
    }

    /** scaledPathInFrame(): the scaled path moved, unscaled, to cropRect's origin; nil unless all three are set. */
    function ScaledPathInFrame(): (r: Option<Path>)
      reads this
      ensures r.None? <==> scaledCropPath.None? || scaledCropWidth.None? || scaledCropHeight.None?
      ensures r.Some? ==>
        Bounds(r.value) == Rect(CropRect().value.origin, Bounds(scaledCropPath.value).size)
    {
      if scaledCropPath.None? || scaledCropWidth.None? || scaledCropHeight.None? then None
      else
        var pointX := frame.size.width / 2.0 - scaledCropWidth.value / 2.0;
        var pointY := frame.size.height / 2.0 - scaledCropHeight.value / 2.0;
        PlacedPathBounds(scaledCropPath.value, Point(pointX, pointY));
        Some(Scale(scaledCropPath.value, Point(pointX, pointY), 1.0))
    }

    /** pointInside(_:withEvent:): the overlay lets every touch through. */
    function PointInside(point: Point): (r: bool)
      ensures !r
    {
      false
    }

    /**
     * What scaleCropPath leaves behind: without a crop path the three scaled fields are nil;
     * otherwise they hold the fill size and the crop path scaled to that width at the origin.
     */
    predicate Rescaled()
      requires Measurable()
      reads this
    {
      if cropPath.None? then
        scaledCropPath.None? && scaledCropWidth.None? && scaledCropHeight.None?
      else
        && scaledCropWidth.Some? && scaledCropHeight.Some?
        && FillsAsWritten(frame.size, Bounds(cropPath.value).size, maxFillPercent,
                          Size(scaledCropWidth.value, scaledCropHeight.value))
        && scaledCropPath == Some(ScaledPath(cropPath.value, scaledCropWidth.value))
    }

    /** scaleCropPath() */
    method ScaleCropPath()
      requires Measurable()
      modifies this
      ensures frame == old(frame) && maxFillPercent == old(maxFillPercent)
      ensures cropPath == old(cropPath) && oldFrame == old(oldFrame)
      ensures Measurable() && Rescaled()
    {
      if cropPath.None? {
        scaledCropPath := None;
        scaledCropWidth := None;
        scaledCropHeight := None;
        return;
      }
      var cropBoundingBox := Bounds(cropPath.value);
      var width, height := ScaledCropSize(frame.size, cropBoundingBox.size, maxFillPercent);
      var scaled := Scale(cropPath.value, Point(0.0, 0.0), width / cropBoundingBox.size.width);
      assert scaled == ScaledPath(cropPath.value, width);
      scaledCropWidth := Some(width);
      scaledCropHeight := Some(height);
      scaledCropPath := Some(scaled);
    }

    /** Setting `cropPath` stores it and always rescales. */
    method SetCropPath(newValue: Option<Path>)
      requires newValue.Some? ==> Proper(frame.size) && Proper(Bounds(newValue.value).size)
      modifies this
      ensures cropPath == newValue
      ensures frame == old(frame) && maxFillPercent == old(maxFillPercent) && oldFrame == old(oldFrame)
      ensures Measurable() && Rescaled()
    {
      cropPath := newValue;
      ScaleCropPath();
    }

    /** layoutSubviews(): rescales only when the frame moved since the last layout, and records it. */
    method LayoutSubviews()
      requires oldFrame != frame ==> Measurable()
      modifies this
      ensures oldFrame == frame && frame == old(frame)
      ensures cropPath == old(cropPath) && maxFillPercent == old(maxFillPercent)
      ensures old(oldFrame) == old(frame) ==> unchanged(this)
      ensures old(oldFrame) != old(frame) ==> Measurable() && Rescaled()
    {
      if oldFrame != frame {
        oldFrame := frame;
        ScaleCropPath();
      }
    }
  }

  /**
   * After a rescale with a positive fill, the scaled crop path's bounding box sits at the
   * origin and is exactly scaledCropWidth × scaledCropHeight.
   */
  lemma ScaledPathAtOrigin(view: CropOverlayView)
    requires view.cropPath.Some? && view.Measurable() && view.maxFillPercent > 0.0 && view.Rescaled()
    ensures view.scaledCropPath.Some? && view.scaledCropWidth.Some? && view.scaledCropHeight.Some?
    ensures Bounds(view.scaledCropPath.value)
         == Rect(Point(0.0, 0.0), Size(view.scaledCropWidth.value, view.scaledCropHeight.value))
  {
    var s := Size(view.scaledCropWidth.value, view.scaledCropHeight.value);
    FillPositive(view.frame.size, Bounds(view.cropPath.value).size, view.maxFillPercent, s);
    ScaledToWidth(view.cropPath.value, s);
  }

  /**
   * After a rescale with a positive fill, the hole drawn by drawRect (scaledPathInFrame) has
   * exactly the bounding box cropRect describes.
   */
  lemma HoleIsCropRect(view: CropOverlayView)
    requires view.cropPath.Some? && view.Measurable() && view.maxFillPercent > 0.0 && view.Rescaled()
    ensures view.ScaledPathInFrame().Some? && view.CropRect().Some?
    ensures Bounds(view.ScaledPathInFrame().value) == view.CropRect().value
  {
    ScaledPathAtOrigin(view);
  }
}
