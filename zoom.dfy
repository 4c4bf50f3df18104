// NTImageView and NTCropScrollView: a scroll view that shows one image, zooms it so that it
// fits the frame, widens the zoom bounds to admit that zoom, and centres the image with four
// padding constraints. NTCropScrollView carries the same zoom logic without zoomOut.
module Zoom {
  import opened Geometry
  import opened Options

  // ---------------------------------------------------------------------------
  // Real arithmetic over plain variables

  lemma ScaleStrictIff(x: real, y: real, k: real)
    requires k > 0.0
    ensures x > y <==> x * k > y * k
  {
    if x > y {
      assert (x - y) * k > 0.0;
    } else {
      assert (y - x) * k >= 0.0;
    }
  }

  /** Comparing two quotients with positive denominators is comparing the cross products. */
  lemma CrossCompare(a: real, b: real, c: real, d: real)
    requires b > 0.0 && d > 0.0
    ensures a / b > c / d <==> a * d > c * b
  {
    var x, y := a / b, c / d;
    assert a == x * b && c == y * d;
    assert a * d == x * (b * d);
    assert c * b == y * (b * d);
    ScaleStrictIff(x, y, b * d);
  }

  lemma MulBelowQuotient(s: real, t: real, f: real)
    requires s > 0.0 && t <= f / s
    ensures s * t <= f
  {
    assert s * t <= s * (f / s);
  }

  lemma QuotientAboveMul(s: real, z: real, f: real)
    requires s > 0.0 && s * z <= f
    ensures z <= f / s
  {
    assert z == (s * z) / s;
    assert (s * z) / s <= f / s;
  }

  // ---------------------------------------------------------------------------
  // The zoom, its bounds and the padding

  /**
   * The target scale of configureInitialScale: when the frame is relatively wider than the
   * image the height fits, otherwise the width fits. That is the smaller of the two fit ratios.
   */
  function TargetScale(frame: Size, image: Size): (r: real)
    requires Proper(frame) && Proper(image)
    ensures r == Min(frame.width / image.width, frame.height / image.height)
  {
    var aspectRatioView := frame.width / frame.height;
    var aspectRatioImage := image.width / image.height;
    CrossCompare(frame.width, frame.height, image.width, image.height);
    CrossCompare(frame.width, image.width, frame.height, image.height);
    if aspectRatioView > aspectRatioImage then frame.height / image.height
    else frame.width / image.width
  }

  /** At the target scale the image fits inside the frame and meets it on one side. */
  lemma TargetFits(frame: Size, image: Size)
    requires Proper(frame) && Proper(image)
    ensures var t := TargetScale(frame, image);
      && image.width * t <= frame.width && image.height * t <= frame.height
      && (image.width * t == frame.width || image.height * t == frame.height)
  {
    var t := TargetScale(frame, image);
    MulBelowQuotient(image.width, t, frame.width);
    MulBelowQuotient(image.height, t, frame.height);
  }

  /** No larger zoom fits: the target is the largest zoom at which the image is inside the frame. */
  lemma TargetLargest(frame: Size, image: Size, zoom: real)
    requires Proper(frame) && Proper(image)
    requires image.width * zoom <= frame.width && image.height * zoom <= frame.height
    ensures zoom <= TargetScale(frame, image)
  {
    QuotientAboveMul(image.width, zoom, frame.width);
    QuotientAboveMul(image.height, zoom, frame.height);
  }

  /**
   * The update of minimumZoomScale and maximumZoomScale: a target below the minimum becomes
   * the minimum, one above the maximum becomes the maximum. The bounds only ever widen, stay
   * as they are when the target is inside them, and (when they are ordered) then hold it.
   */
  function WidenedBounds(minimum: real, maximum: real, target: real): (r: (real, real))
    ensures r.0 <= minimum && r.1 >= maximum
    ensures minimum <= target <= maximum ==> r == (minimum, maximum)
    ensures minimum <= maximum ==> r.0 <= target <= r.1 && r == (Min(minimum, target), Max(maximum, target))
  {
    if target < minimum then (target, maximum)
    else if target > maximum then (minimum, target)
    else (minimum, maximum)
  }

  /**
   * The padding of updateImageConstraints on one axis: half of what the zoomed image leaves
   * of the frame, never negative. An image that fits is centred; one that does not gets none.
   */
  function Padding(frameSide: real, imageSide: real, zoom: real): (r: real)
    ensures r >= 0.0
    ensures imageSide * zoom <= frameSide ==> 2.0 * r + imageSide * zoom == frameSide
    ensures imageSide * zoom >= frameSide ==> r == 0.0
  {
    Max(0.0, (frameSide - imageSide * zoom) / 2.0)
  }

  /** The four constraint constants. */
  datatype Insets = Insets(top: real, bottom: real, left: real, right: real)

  /** The scroll view's zoom state: the bounds, the zoom and the image's insets. */
  datatype ZoomLayout = ZoomLayout(minimum: real, maximum: real, zoom: real, insets: Insets)

  /** The insets updateImageConstraints sets for an image at the layout's zoom: equal in pairs. */
  predicate PaddedFor(frame: Size, image: Size, layout: ZoomLayout)
  {
    && layout.insets.top == layout.insets.bottom == Padding(frame.height, image.height, layout.zoom)
    && layout.insets.left == layout.insets.right == Padding(frame.width, image.width, layout.zoom)
  }

  /**
   * What configureInitialScale leaves: without an image, the default bounds and zoom 1; with
   * one, the target zoom, the default bounds widened to it, and the padding for that zoom.
   */
  predicate ConfiguredFor(frame: Size, image: Option<Image>, defaultMinimum: real, defaultMaximum: real,
                          layout: ZoomLayout)
    requires image.Some? ==> Proper(frame) && Proper(image.value.size)
  {
    if image.None? then
      layout.minimum == defaultMinimum && layout.maximum == defaultMaximum && layout.zoom == 1.0
    else
      var t := TargetScale(frame, image.value.size);
      && layout.zoom == t
      && (layout.minimum, layout.maximum) == WidenedBounds(defaultMinimum, defaultMaximum, t)
      && PaddedFor(frame, image.value.size, layout)
  }

  /** Configured with an image and ordered defaults, the zoom lies within the (widened) bounds. */
  lemma ConfiguredZoomInBounds(frame: Size, image: Image, defaultMinimum: real, defaultMaximum: real,
                               layout: ZoomLayout)
    requires Proper(frame) && Proper(image.size) && defaultMinimum <= defaultMaximum
    requires ConfiguredFor(frame, Some(image), defaultMinimum, defaultMaximum, layout)
    ensures layout.minimum <= layout.zoom <= layout.maximum
    ensures layout.minimum <= defaultMinimum && defaultMaximum <= layout.maximum
  {
  }

  /**
   * Configured with an image, the zoomed image fits the frame, the insets centre it on both
   * axes, and on the axis it fills there is no padding.
   */
  lemma ConfiguredImageCentred(frame: Size, image: Image, defaultMinimum: real, defaultMaximum: real,
                               layout: ZoomLayout)
    requires Proper(frame) && Proper(image.size)
    requires ConfiguredFor(frame, Some(image), defaultMinimum, defaultMaximum, layout)
    ensures image.size.width * layout.zoom <= frame.width && image.size.height * layout.zoom <= frame.height
    ensures 2.0 * layout.insets.left + image.size.width * layout.zoom == frame.width
    ensures 2.0 * layout.insets.top + image.size.height * layout.zoom == frame.height
    ensures layout.insets.left == 0.0 || layout.insets.top == 0.0
  {
    TargetFits(frame, image.size);
  }

  /** `_image?.size`: the sizes the image setter compares. */
  function SizeOf(image: Option<Image>): Option<Size>
  {
    if image.Some? then Some(image.value.size) else None
  }

  // ---------------------------------------------------------------------------
  // NTImageView

  class ImageView {
    var frame: Rect
    var image: Option<Image>            // `_image`
    var imageViewImage: Option<Image>   // `imageView.image`
    var imageViewFrame: Rect            // `imageView.frame`
    var topConstant: real
    var bottomConstant: real
    var leftConstant: real
    var rightConstant: real
    var minimumZoomScale: real
    var maximumZoomScale: real
    var zoomScale: real
    var oldFrame: Rect
    var defaultMinimumZoomScale: real
    var defaultMaximumZoomScale: real

    /** Nothing divides by zero: with an image, the frame and the image have positive sides. */
    predicate Measurable()
      reads this
    {
      image.Some? ==> Proper(frame.size) && Proper(image.value.size)
    }

    function Layout(): ZoomLayout
      reads this
    {
      ZoomLayout(minimumZoomScale, maximumZoomScale, zoomScale,
                 Insets(topConstant, bottomConstant, leftConstant, rightConstant))
    }

    predicate Configured()
      requires Measurable()
      reads this
    {
      ConfiguredFor(frame.size, image, defaultMinimumZoomScale, defaultMaximumZoomScale, Layout())
    }

    /** init(frame:), which runs configureView(). */
    constructor (frame: Rect)
      ensures this.frame == frame && image.None? && imageViewImage.None? && imageViewFrame == ZeroRect
      ensures defaultMinimumZoomScale == 0.5 && defaultMaximumZoomScale == 2.0 && oldFrame == ZeroRect
      ensures minimumZoomScale == 0.5 && maximumZoomScale == 2.0 && zoomScale == 1.0
      ensures topConstant == bottomConstant == leftConstant == rightConstant == 0.0
    {
      this.frame := frame;
      image := None;
      imageViewImage := None;
      imageViewFrame := ZeroRect;
      topConstant, bottomConstant, leftConstant, rightConstant := 0.0, 0.0, 0.0, 0.0;
      minimumZoomScale, maximumZoomScale, zoomScale := 1.0, 1.0, 1.0;
      oldFrame := ZeroRect;
      defaultMinimumZoomScale := 0.5;
      defaultMaximumZoomScale := 2.0;
      new;
      ConfigureView();
    }

    /** configureView(): an empty image view pinned by four constraints of constant 0, then the default zoom. */
    method ConfigureView()
      requires image.None?
      modifies this
      ensures frame == old(frame) && image == old(image) && oldFrame == old(oldFrame)
      ensures defaultMinimumZoomScale == old(defaultMinimumZoomScale)
      ensures defaultMaximumZoomScale == old(defaultMaximumZoomScale)
      ensures imageViewImage.None? && imageViewFrame == ZeroRect
      ensures topConstant == bottomConstant == leftConstant == rightConstant == 0.0
      ensures minimumZoomScale == defaultMinimumZoomScale && maximumZoomScale == defaultMaximumZoomScale
      ensures zoomScale == 1.0
    {
      imageViewImage := None;
      imageViewFrame := ZeroRect;
      topConstant, bottomConstant, leftConstant, rightConstant := 0.0, 0.0, 0.0, 0.0;
      ConfigureInitialScale();
    }

    /** configureInitialScale() */
    method ConfigureInitialScale()
      requires Measurable()
      modifies this
      ensures frame == old(frame) && image == old(image) && oldFrame == old(oldFrame)
      ensures imageViewImage == old(imageViewImage) && imageViewFrame == old(imageViewFrame)
      ensures defaultMinimumZoomScale == old(defaultMinimumZoomScale)
      ensures defaultMaximumZoomScale == old(defaultMaximumZoomScale)
      ensures image.None? ==> Layout().insets == old(Layout().insets)
      ensures Measurable() && Configured()
    {
      minimumZoomScale := defaultMinimumZoomScale;
      maximumZoomScale := defaultMaximumZoomScale;
      zoomScale := 1.0;
      if image.None? {
        return;
      }
      var aspectRatioView := frame.size.width / frame.size.height;
      var aspectRatioImage := image.value.size.width / image.value.size.height;
      var targetScale := 1.0;
      if aspectRatioView > aspectRatioImage {
        targetScale := frame.size.height / image.value.size.height;
      } else {
        targetScale := frame.size.width / image.value.size.width;
      }
      assert targetScale == TargetScale(frame.size, image.value.size);
      if targetScale < minimumZoomScale {
        minimumZoomScale := targetScale;
      } else if targetScale > maximumZoomScale {
        maximumZoomScale := targetScale;
      }
      zoomScale := targetScale;
      UpdateImageConstraints();
    }

    /** updateImageConstraints(): without an image nothing changes; otherwise the padding at the current zoom. */
    method UpdateImageConstraints()
      modifies this
      ensures frame == old(frame) && image == old(image) && oldFrame == old(oldFrame)
      ensures imageViewImage == old(imageViewImage) && imageViewFrame == old(imageViewFrame)
      ensures defaultMinimumZoomScale == old(defaultMinimumZoomScale)
      ensures defaultMaximumZoomScale == old(defaultMaximumZoomScale)
      ensures minimumZoomScale == old(minimumZoomScale) && maximumZoomScale == old(maximumZoomScale)
      ensures zoomScale == old(zoomScale)
      ensures image.None? ==> unchanged(this)
      ensures image.Some? ==> PaddedFor(frame.size, image.value.size, Layout())
    {
      if image.None? {
        return;
      }
      var horizontalPadding := Max(0.0, (frame.size.width - image.value.size.width * zoomScale) / 2.0);
      var verticalPadding := Max(0.0, (frame.size.height - image.value.size.height * zoomScale) / 2.0);
      topConstant := verticalPadding;
      bottomConstant := verticalPadding;
      leftConstant := horizontalPadding;
      rightConstant := horizontalPadding;
    }

    /** updateImageViewFrame(): the image view takes the image's size at the origin. */
    method UpdateImageViewFrame()
      modifies this
      ensures image.None? ==> unchanged(this)
      ensures image.Some? ==> imageViewFrame == MakeRect(0.0, 0.0, image.value.size.width, image.value.size.height)
      ensures image.Some? ==> Layout() == old(Layout())
      ensures frame == old(frame) && image == old(image) && oldFrame == old(oldFrame)
      ensures imageViewImage == old(imageViewImage)
      ensures defaultMinimumZoomScale == old(defaultMinimumZoomScale)
      ensures defaultMaximumZoomScale == old(defaultMaximumZoomScale)
    {
      if image.None? {
        return;
      }
      imageViewFrame := MakeRect(0.0, 0.0, image.value.size.width, image.value.size.height);
    }

    /**
     * Setting `image`: the image and the image view's image are always replaced; only an image
     * of a different size (or appearing or disappearing) resizes the image view and reconfigures
     * the zoom.
     */
    method SetImage(newValue: Option<Image>)
      requires newValue.Some? ==> Proper(frame.size) && Proper(newValue.value.size)
      modifies this
      ensures image == newValue && imageViewImage == newValue
      ensures frame == old(frame) && oldFrame == old(oldFrame)
      ensures defaultMinimumZoomScale == old(defaultMinimumZoomScale)
      ensures defaultMaximumZoomScale == old(defaultMaximumZoomScale)
      ensures Measurable()
      ensures SizeOf(old(image)) != SizeOf(newValue) ==> Configured()
      ensures SizeOf(old(image)) != SizeOf(newValue) && newValue.Some? ==>
        imageViewFrame == MakeRect(0.0, 0.0, newValue.value.size.width, newValue.value.size.height)
      ensures SizeOf(old(image)) == SizeOf(newValue) ==>
        Layout() == old(Layout()) && imageViewFrame == old(imageViewFrame)
    {
      if SizeOf(image) != SizeOf(newValue) {
        image := newValue;
        imageViewImage := image;
        UpdateImageViewFrame();
        ConfigureInitialScale();
      } else {
        image := newValue;
        imageViewImage := image;
      }
    }

    /** layoutSubviews(): reconfigures only when the frame changed since the last layout, and records it. */
    method LayoutSubviews()
      requires oldFrame != frame ==> Measurable()
      modifies this
      ensures oldFrame == frame && frame == old(frame) && image == old(image)
      ensures defaultMinimumZoomScale == old(defaultMinimumZoomScale)
      ensures defaultMaximumZoomScale == old(defaultMaximumZoomScale)
      ensures old(oldFrame) == old(frame) ==> unchanged(this)
      ensures old(oldFrame) != old(frame) ==> Measurable() && Configured()
    {
      if oldFrame != frame {
        oldFrame := frame;
        ConfigureInitialScale();
      }
    }

    /** zoomOut(): the zoom drops to the minimum; nothing else changes. */
    method ZoomOut()
      modifies this
      ensures zoomScale == minimumZoomScale == old(minimumZoomScale)
      ensures Layout() == old(Layout()).(zoom := old(minimumZoomScale))
      ensures frame == old(frame) && image == old(image) && oldFrame == old(oldFrame)
      ensures imageViewImage == old(imageViewImage) && imageViewFrame == old(imageViewFrame)
      ensures defaultMinimumZoomScale == old(defaultMinimumZoomScale)
      ensures defaultMaximumZoomScale == old(defaultMaximumZoomScale)
    {
      zoomScale := minimumZoomScale;
    }

    /** scrollViewDidZoom(_:): the padding follows the new zoom. */
    method ScrollViewDidZoom()
      modifies this
      ensures zoomScale == old(zoomScale) && frame == old(frame) && image == old(image)
      ensures image.None? ==> unchanged(this)
      ensures image.Some? ==> PaddedFor(frame.size, image.value.size, Layout())
    {
      UpdateImageConstraints();
    }
  }

  // ---------------------------------------------------------------------------
  // NTCropScrollView: the same fields and zoom logic, without zoomOut

  class CropScrollView {
    var frame: Rect
    var image: Option<Image>            // `_image`
    var imageViewImage: Option<Image>   // `imageView.image`
    var imageViewFrame: Rect            // `imageView.frame`
    var topConstant: real
    var bottomConstant: real
    var leftConstant: real
    var rightConstant: real
    var minimumZoomScale: real
    var maximumZoomScale: real
    var zoomScale: real
    var oldFrame: Rect
    var defaultMinimumZoomScale: real
    var defaultMaximumZoomScale: real

    predicate Measurable()
      reads this
    {
      image.Some? ==> Proper(frame.size) && Proper(image.value.size)
    }

    function Layout(): ZoomLayout
      reads this
    {
      ZoomLayout(minimumZoomScale, maximumZoomScale, zoomScale,
                 Insets(topConstant, bottomConstant, leftConstant, rightConstant))
    }

    predicate Configured()
      requires Measurable()
      reads this
    {
      ConfiguredFor(frame.size, image, defaultMinimumZoomScale, defaultMaximumZoomScale, Layout())
    }

    /** init(frame:), which runs configureView(). */
    constructor (frame: Rect)
      ensures this.frame == frame && image.None? && imageViewImage.None? && imageViewFrame == ZeroRect
      ensures defaultMinimumZoomScale == 0.5 && defaultMaximumZoomScale == 2.0 && oldFrame == ZeroRect
      ensures minimumZoomScale == 0.5 && maximumZoomScale == 2.0 && zoomScale == 1.0
      ensures topConstant == bottomConstant == leftConstant == rightConstant == 0.0
    {
      this.frame := frame;
      image := None;
      imageViewImage := None;
      imageViewFrame := ZeroRect;
      topConstant, bottomConstant, leftConstant, rightConstant := 0.0, 0.0, 0.0, 0.0;
      minimumZoomScale, maximumZoomScale, zoomScale := 1.0, 1.0, 1.0;
      oldFrame := ZeroRect;
      defaultMinimumZoomScale := 0.5;
      defaultMaximumZoomScale := 2.0;
      new;
      ConfigureView();
    }

    /** configureView() */
    method ConfigureView()
      requires image.None?
      modifies this
      ensures frame == old(frame) && image == old(image) && oldFrame == old(oldFrame)
      ensures defaultMinimumZoomScale == old(defaultMinimumZoomScale)
      ensures defaultMaximumZoomScale == old(defaultMaximumZoomScale)
      ensures imageViewImage.None? && imageViewFrame == ZeroRect
      ensures topConstant == bottomConstant == leftConstant == rightConstant == 0.0
      ensures minimumZoomScale == defaultMinimumZoomScale && maximumZoomScale == defaultMaximumZoomScale
      ensures zoomScale == 1.0
    {
      imageViewImage := None;
      imageViewFrame := ZeroRect;
      topConstant, bottomConstant, leftConstant, rightConstant := 0.0, 0.0, 0.0, 0.0;
      ConfigureInitialScale();
    }

    /** configureInitialScale() */
    method ConfigureInitialScale()
      requires Measurable()
      modifies this
      ensures frame == old(frame) && image == old(image) && oldFrame == old(oldFrame)
      ensures imageViewImage == old(imageViewImage) && imageViewFrame == old(imageViewFrame)
      ensures defaultMinimumZoomScale == old(defaultMinimumZoomScale)
      ensures defaultMaximumZoomScale == old(defaultMaximumZoomScale)
      ensures image.None? ==> Layout().insets == old(Layout().insets)
      ensures Measurable() && Configured()
    {
      minimumZoomScale := defaultMinimumZoomScale;
      maximumZoomScale := defaultMaximumZoomScale;
      zoomScale := 1.0;
      if image.None? {
        return;
      }
      var aspectRatioView := frame.size.width / frame.size.height;
      var aspectRatioImage := image.value.size.width / image.value.size.height;
      var targetScale := 1.0;
      if aspectRatioView > aspectRatioImage {
        targetScale := frame.size.height / image.value.size.height;
      } else {
        targetScale := frame.size.width / image.value.size.width;
      }
      assert targetScale == TargetScale(frame.size, image.value.size);
      if targetScale < minimumZoomScale {
        minimumZoomScale := targetScale;
      } else if targetScale > maximumZoomScale {
        maximumZoomScale := targetScale;
      }
      zoomScale := targetScale;
      UpdateImageConstraints();
    }

    /** updateImageConstraints() */
    method UpdateImageConstraints()
      modifies this
      ensures frame == old(frame) && image == old(image) && oldFrame == old(oldFrame)
      ensures imageViewImage == old(imageViewImage) && imageViewFrame == old(imageViewFrame)
      ensures defaultMinimumZoomScale == old(defaultMinimumZoomScale)
      ensures defaultMaximumZoomScale == old(defaultMaximumZoomScale)
      ensures minimumZoomScale == old(minimumZoomScale) && maximumZoomScale == old(maximumZoomScale)
      ensures zoomScale == old(zoomScale)
      ensures image.None? ==> unchanged(this)
      ensures image.Some? ==> PaddedFor(frame.size, image.value.size, Layout())
    {
      if image.None? {
        return;
      }
      var horizontalPadding := Max(0.0, (frame.size.width - image.value.size.width * zoomScale) / 2.0);
      var verticalPadding := Max(0.0, (frame.size.height - image.value.size.height * zoomScale) / 2.0);
      topConstant := verticalPadding;
      bottomConstant := verticalPadding;
      leftConstant := horizontalPadding;
      rightConstant := horizontalPadding;
    }

    /** updateImageViewFrame() */
    method UpdateImageViewFrame()
      modifies this
      ensures image.None? ==> unchanged(this)
      ensures image.Some? ==> imageViewFrame == MakeRect(0.0, 0.0, image.value.size.width, image.value.size.height)
      ensures image.Some? ==> Layout() == old(Layout())
      ensures frame == old(frame) && image == old(image) && oldFrame == old(oldFrame)
      ensures imageViewImage == old(imageViewImage)
      ensures defaultMinimumZoomScale == old(defaultMinimumZoomScale)
      ensures defaultMaximumZoomScale == old(defaultMaximumZoomScale)
    {
      if image.None? {
        return;
      }
      imageViewFrame := MakeRect(0.0, 0.0, image.value.size.width, image.value.size.height);
    }

    /** Setting `image`: reconfigures only on a change of size. */
    method SetImage(newValue: Option<Image>)
      requires newValue.Some? ==> Proper(frame.size) && Proper(newValue.value.size)
      modifies this
      ensures image == newValue && imageViewImage == newValue
      ensures frame == old(frame) && oldFrame == old(oldFrame)
      ensures defaultMinimumZoomScale == old(defaultMinimumZoomScale)
      ensures defaultMaximumZoomScale == old(defaultMaximumZoomScale)
      ensures Measurable()
      ensures SizeOf(old(image)) != SizeOf(newValue) ==> Configured()
      ensures SizeOf(old(image)) != SizeOf(newValue) && newValue.Some? ==>
        imageViewFrame == MakeRect(0.0, 0.0, newValue.value.size.width, newValue.value.size.height)
      ensures SizeOf(old(image)) == SizeOf(newValue) ==>
        Layout() == old(Layout()) && imageViewFrame == old(imageViewFrame)
    {
      if SizeOf(image) != SizeOf(newValue) {
        image := newValue;
        imageViewImage := image;
        UpdateImageViewFrame();
        ConfigureInitialScale();
      } else {
        image := newValue;
        imageViewImage := image;
      }
    }

    /** layoutSubviews() */
    method LayoutSubviews()
      requires oldFrame != frame ==> Measurable()
      modifies this
      ensures oldFrame == frame && frame == old(frame) && image == old(image)
      ensures defaultMinimumZoomScale == old(defaultMinimumZoomScale)
      ensures defaultMaximumZoomScale == old(defaultMaximumZoomScale)
      ensures old(oldFrame) == old(frame) ==> unchanged(this)
      ensures old(oldFrame) != old(frame) ==> Measurable() && Configured()
    {
      if oldFrame != frame {
        oldFrame := frame;
        ConfigureInitialScale();
      }
    }

    /** scrollViewDidZoom(_:) */
    method ScrollViewDidZoom()
      modifies this
      ensures zoomScale == old(zoomScale) && frame == old(frame) && image == old(image)
      ensures image.None? ==> unchanged(this)
      ensures image.Some? ==> PaddedFor(frame.size, image.value.size, Layout())
    {
      UpdateImageConstraints();
    }
  }
}
