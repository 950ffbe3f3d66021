/**
 * The preview's zoom and pan bookkeeping (GestureDelegate): the scale at
 * which the image fits the view, how far a zoomed image may be panned, the
 * clamp that pulls an over-panned image back, and the pinch, pan and tap
 * handlers; plus the shrink factor the preview applies to a rotated image.
 */
module ImagePreviewGestures {
  import opened CoreTypes

  const ZeroSize := Size(0.0, 0.0)

  /** Both sides positive. */
  predicate Positive(s: Size) { s.width > 0.0 && s.height > 0.0 }

  /** getScaleToFit(imageSize:in:): the largest scale at which the whole
      image fits the view. */
  function GetScaleToFit(imageSize: Size, size: Size): (scale: real)
    requires imageSize.width != 0.0 && imageSize.height != 0.0
    ensures scale <= size.width / imageSize.width && scale <= size.height / imageSize.height
    ensures scale == size.width / imageSize.width || scale == size.height / imageSize.height
  {
    Min(size.width / imageSize.width, size.height / imageSize.height)
  }

  /** At the fitting scale the image fits the view and fills it along one
      side; no larger scale fits. */
  lemma ScaleToFitFits(imageSize: Size, size: Size)
    requires Positive(imageSize)
    ensures var s := GetScaleToFit(imageSize, size);
      s * imageSize.width <= size.width && s * imageSize.height <= size.height
      && (s * imageSize.width == size.width || s * imageSize.height == size.height)
    ensures forall t: real :: t > GetScaleToFit(imageSize, size) ==> !FitsIn(t, imageSize, size)
  {
    var h := size.width / imageSize.width;
    var v := size.height / imageSize.height;
    assert h * imageSize.width == size.width;
    assert v * imageSize.height == size.height;
    var s := GetScaleToFit(imageSize, size);
    if s == h {
      assert v >= h;
      assert s * imageSize.height <= v * imageSize.height;
    } else {
      assert h >= v;
      assert s * imageSize.width <= h * imageSize.width;
    }
    forall t: real | t > s
      ensures !FitsIn(t, imageSize, size)
    {
      if s == h {
        assert t * imageSize.width > h * imageSize.width;
      } else {
        assert t * imageSize.height > v * imageSize.height;
      }
    }
  }

  /** The image scaled by `scale` fits the view. */
  predicate FitsIn(scale: real, imageSize: Size, size: Size) {
    scale * imageSize.width <= size.width && scale * imageSize.height <= size.height
  }

  /** The stage a pinch or pan recogniser reports. */
  datatype GestureStage = Began | Changed | Ended | Other

  /** The sign factor `value < 0 ? -1 : 1`. */
  function Sign(value: real): real {
    if value < 0.0 then -1.0 else 1.0
  }

  class GestureDelegate {
    var imageSize: Size
    var geometrySize: Size
    var fixedZoomScale: real
    var gestureZoomScale: real
    var fixedPanOffset: Size
    var gesturePanOffset: Size

    constructor ()
      ensures imageSize == ZeroSize && geometrySize == ZeroSize
      ensures fixedZoomScale == 1.0 && gestureZoomScale == 1.0
      ensures fixedPanOffset == ZeroSize && gesturePanOffset == ZeroSize
    {
      imageSize, geometrySize := ZeroSize, ZeroSize;
      fixedZoomScale, gestureZoomScale := 1.0, 1.0;
      fixedPanOffset, gesturePanOffset := ZeroSize, ZeroSize;
    }

    /** The image and the view have positive sizes. */
    predicate Valid()
      reads this
    {
      Positive(imageSize) && Positive(geometrySize)
    }

    /** zoomScale */
    function ZoomScale(): (zoom: real)
      reads this
      ensures gestureZoomScale == 1.0 ==> zoom == fixedZoomScale
      ensures fixedZoomScale > 0.0 && gestureZoomScale > 0.0 ==> zoom > 0.0
    {
      fixedZoomScale * gestureZoomScale
    }

    /** panOffset: the fixed and the in-flight pan, scaled by the zoom. */
    function PanOffset(): (pan: Size)
      reads this
      ensures gesturePanOffset == ZeroSize ==>
        pan.width == fixedPanOffset.width * ZoomScale() && pan.height == fixedPanOffset.height * ZoomScale()
      ensures fixedPanOffset == ZeroSize && gesturePanOffset == ZeroSize ==> pan == ZeroSize
    {
      Pan(fixedPanOffset, gesturePanOffset, ZoomScale())
    }

    /** calcPanableSpace(imageSize:in:) at the current zoom. */
    function CalcPanableSpace(image: Size, viewSize: Size): (space: Option<Size>)
      reads this
      requires image.width != 0.0 && image.height != 0.0
      ensures space.None? <==> ZoomScale() <= GetScaleToFit(image, viewSize)
      ensures space.Some? ==>
        2.0 * space.value.width == image.width * ZoomScale() - image.width * GetScaleToFit(image, viewSize)
        && 2.0 * space.value.height == image.height * ZoomScale() - image.height * GetScaleToFit(image, viewSize)
    {
      PanableSpace(image, viewSize, ZoomScale())
    }

    /** checkExceedEdge(in:) */
    predicate CheckExceedEdge(panableSpace: Size)
      reads this
      ensures CheckExceedEdge(panableSpace) && panableSpace.width >= 0.0 && panableSpace.height >= 0.0 ==>
        PanOffset() != ZeroSize
    {
      Exceeds(PanOffset(), panableSpace)
    }

    /** calcMaxiumOffset(in:) */
    function CalcMaximumOffset(panableSpace: Size): (offset: Size)
      reads this
      requires ZoomScale() != 0.0
      ensures Pan(offset, ZeroSize, ZoomScale()) == PanOffset() <==> !CheckExceedEdge(panableSpace)
      ensures panableSpace.width >= 0.0 && panableSpace.height >= 0.0 ==>
        !Exceeds(Pan(offset, ZeroSize, ZoomScale()), panableSpace)
    {
      var pan := PanOffset();
      ClampKeepsOnlyInsidePan(pan, panableSpace, ZoomScale());
      if panableSpace.width >= 0.0 && panableSpace.height >= 0.0 then
        ClampedPanStaysInside(pan, panableSpace, ZoomScale());
        ClampOffset(pan, panableSpace, ZoomScale())
      else ClampOffset(pan, panableSpace, ZoomScale())
    }

    /** zoomToFit(for:): no pan, and the fitting zoom. */
    method ZoomToFit(size: Size)
      requires Valid()
      modifies this
      ensures imageSize == old(imageSize) && geometrySize == old(geometrySize)
      ensures fixedPanOffset == ZeroSize
      ensures fixedZoomScale == GetScaleToFit(imageSize, size)
      ensures gestureZoomScale == old(gestureZoomScale) && gesturePanOffset == old(gesturePanOffset)
    {
      fixedPanOffset := ZeroSize;
      fixedZoomScale := GetScaleToFit(imageSize, size);
    }

    /** pinchImage(_:): a pinch starts at scale 1, follows the recogniser's
        scale, and on ending folds its scale into the fixed zoom, snapping
        back to the fitting zoom (without pan) if that left the image
        smaller than the view. */
    method PinchImage(stage: GestureStage, scale: real)
      requires Valid()
      modifies this
      ensures Valid()
      ensures imageSize == old(imageSize) && geometrySize == old(geometrySize)
      ensures gesturePanOffset == old(gesturePanOffset)
      ensures stage == Began ==>
        gestureZoomScale == 1.0 && fixedZoomScale == old(fixedZoomScale) && fixedPanOffset == old(fixedPanOffset)
      ensures stage == Changed ==>
        gestureZoomScale == scale && fixedZoomScale == old(fixedZoomScale) && fixedPanOffset == old(fixedPanOffset)
      ensures stage != Began && stage != Changed ==> gestureZoomScale == 1.0
      ensures stage == Other ==> fixedZoomScale == old(ZoomScale()) && fixedPanOffset == old(fixedPanOffset)
      ensures stage == Ended ==> ZoomScale() >= GetScaleToFit(imageSize, geometrySize)
      ensures stage == Ended && old(ZoomScale()) >= GetScaleToFit(imageSize, geometrySize) ==>
        fixedZoomScale == old(ZoomScale()) && fixedPanOffset == old(fixedPanOffset)
      ensures stage == Ended && old(ZoomScale()) < GetScaleToFit(imageSize, geometrySize) ==>
        fixedZoomScale == GetScaleToFit(imageSize, geometrySize) && fixedPanOffset == ZeroSize
    {
      match stage
      case Began =>
        gestureZoomScale := 1.0;
      case Changed =>
        gestureZoomScale := scale;
      case Ended =>
        var defaultScale := GetScaleToFit(imageSize, geometrySize);
        fixedZoomScale := fixedZoomScale * gestureZoomScale;
        gestureZoomScale := 1.0;
        if defaultScale > ZoomScale() {
          fixedZoomScale := defaultScale;
          fixedPanOffset := ZeroSize;
        }
      case Other =>
        fixedZoomScale := fixedZoomScale * gestureZoomScale;
        gestureZoomScale := 1.0;
    }

    /** The end of a pan: the translation joins the fixed pan, and a pan
        that leaves the panable space is pulled back to its edge. */
    method EndPan(translation: Size, viewSize: Size, divisor: real)
      requires Valid() && Positive(viewSize) && divisor != 0.0
      modifies this
      ensures imageSize == old(imageSize) && geometrySize == old(geometrySize)
      ensures fixedZoomScale == old(fixedZoomScale) && gestureZoomScale == old(gestureZoomScale)
      ensures CalcPanableSpace(imageSize, viewSize).None? ==>
        fixedPanOffset == old(fixedPanOffset) && gesturePanOffset == old(gesturePanOffset)
      ensures CalcPanableSpace(imageSize, viewSize).Some? ==>
        gesturePanOffset == ZeroSize && !CheckExceedEdge(CalcPanableSpace(imageSize, viewSize).value)
      ensures CalcPanableSpace(imageSize, viewSize).Some? ==>
        ZoomScale() != 0.0
        && fixedPanOffset == SettlePan(JoinedPan(old(fixedPanOffset), translation, divisor),
                                       CalcPanableSpace(imageSize, viewSize).value, ZoomScale())
    {
      var panable := CalcPanableSpace(imageSize, viewSize);
      if panable.None? {
        return;
      }
      var panableSpace := panable.value;
      assert ZoomScale() > 0.0 by {
        FitScalePositive(imageSize, viewSize);
      }
      var zoom := ZoomScale();
      var moved := JoinedPan(fixedPanOffset, translation, divisor);
      var settled := SettlePan(moved, panableSpace, zoom);
      gesturePanOffset, fixedPanOffset := ZeroSize, settled;
      assert ZoomScale() == zoom;
      assert PanOffset() == Pan(settled, ZeroSize, zoom);
    }

    /** panImage(_:): a two-finger pan starts from no offset, moves the
        image only when zoomed in beyond 1.2 times the fitting scale, and on
        ending is kept within the panable space of the view. */
    method PanImage(stage: GestureStage, translation: Size)
      requires Valid()
      modifies this
      ensures imageSize == old(imageSize) && geometrySize == old(geometrySize)
      ensures fixedZoomScale == old(fixedZoomScale) && gestureZoomScale == old(gestureZoomScale)
      ensures stage == Began ==> gesturePanOffset == ZeroSize && fixedPanOffset == old(fixedPanOffset)
      ensures stage == Changed ==> fixedPanOffset == old(fixedPanOffset)
      ensures stage == Changed && ZoomScale() > GetScaleToFit(imageSize, geometrySize) * 1.2 ==>
        gesturePanOffset == translation
      ensures stage == Changed && ZoomScale() <= GetScaleToFit(imageSize, geometrySize) * 1.2 ==>
        gesturePanOffset == old(gesturePanOffset)
      ensures stage == Ended && CalcPanableSpace(imageSize, geometrySize).Some? ==>
        gesturePanOffset == ZeroSize && !CheckExceedEdge(CalcPanableSpace(imageSize, geometrySize).value)
      ensures stage == Ended && CalcPanableSpace(imageSize, geometrySize).Some? ==>
        ZoomScale() != 0.0
        && fixedPanOffset == SettlePan(JoinedPan(old(fixedPanOffset), translation, 1.0),
                                       CalcPanableSpace(imageSize, geometrySize).value, ZoomScale())
      ensures stage == Other || (stage == Ended && CalcPanableSpace(imageSize, geometrySize).None?) ==>
        fixedPanOffset == old(fixedPanOffset) && gesturePanOffset == old(gesturePanOffset)
    {
      match stage
      case Began =>
        gesturePanOffset := ZeroSize;
      case Changed =>
        if ZoomScale() > GetScaleToFit(imageSize, geometrySize) * 1.2 {
          gesturePanOffset := translation;
        }
      case Ended =>
        var zoom := ZoomScale();
        EndPan(translation, geometrySize, 1.0);
        assert ZoomScale() == zoom;
        assert translation.width / 1.0 == translation.width && translation.height / 1.0 == translation.height;
      case Other =>
    }

    /** The drag gesture's onEnded: the translation, divided by the zoom,
        joins the fixed pan, kept within the panable space of the view. */
    method DragEnded(translation: Size, size: Size)
      requires Valid() && Positive(size)
      modifies this
      ensures imageSize == old(imageSize) && geometrySize == old(geometrySize)
      ensures fixedZoomScale == old(fixedZoomScale) && gestureZoomScale == old(gestureZoomScale)
      ensures CalcPanableSpace(imageSize, size).None? ==>
        fixedPanOffset == old(fixedPanOffset) && gesturePanOffset == old(gesturePanOffset)
      ensures CalcPanableSpace(imageSize, size).Some? ==>
        gesturePanOffset == ZeroSize && !CheckExceedEdge(CalcPanableSpace(imageSize, size).value)
      ensures CalcPanableSpace(imageSize, size).Some? ==>
        ZoomScale() != 0.0
        && fixedPanOffset == SettlePan(JoinedPan(old(fixedPanOffset), translation, ZoomScale()),
                                       CalcPanableSpace(imageSize, size).value, ZoomScale())
    {
      if ZoomScale() == 0.0 {
        // Zooming to nothing leaves no panable space: nothing moves.
        assert CalcPanableSpace(imageSize, size).None? by {
          FitScalePositive(imageSize, size);
        }
        return;
      }
      var zoom := ZoomScale();
      EndPan(translation, size, zoom);
      assert ZoomScale() == zoom;
    }

    /** The drag gesture's onChanged: while zoomed in beyond the fitting
        scale, the in-flight pan follows the translation, divided by the zoom. */
    method DragChanged(translation: Size, size: Size)
      requires Valid() && Positive(size)
      modifies this
      ensures imageSize == old(imageSize) && geometrySize == old(geometrySize)
      ensures fixedZoomScale == old(fixedZoomScale) && gestureZoomScale == old(gestureZoomScale)
      ensures fixedPanOffset == old(fixedPanOffset)
      ensures ZoomScale() > GetScaleToFit(imageSize, size) ==>
        gesturePanOffset.width * ZoomScale() == translation.width
        && gesturePanOffset.height * ZoomScale() == translation.height
      ensures ZoomScale() <= GetScaleToFit(imageSize, size) ==> gesturePanOffset == old(gesturePanOffset)
    {
      if !(ZoomScale() > GetScaleToFit(imageSize, size)) {
        return;
      }
      FitScalePositive(imageSize, size);
      gesturePanOffset := Size(translation.width / ZoomScale(), translation.height / ZoomScale());
    }

    /** The magnification gesture's onEnded: the fixed zoom takes the
        gesture's scale, snapping back to the fitting zoom without pan if
        that left the image smaller than the view. */
    method ZoomEnded(scale: real, size: Size)
      requires Valid()
      modifies this
      ensures imageSize == old(imageSize) && geometrySize == old(geometrySize)
      ensures gestureZoomScale == old(gestureZoomScale) && gesturePanOffset == old(gesturePanOffset)
      ensures old(fixedZoomScale) * scale * gestureZoomScale >= GetScaleToFit(imageSize, size) ==>
        fixedZoomScale == old(fixedZoomScale) * scale && fixedPanOffset == old(fixedPanOffset)
      ensures old(fixedZoomScale) * scale * gestureZoomScale < GetScaleToFit(imageSize, size) ==>
        fixedZoomScale == GetScaleToFit(imageSize, size) && fixedPanOffset == ZeroSize
    {
      var defaultScale := GetScaleToFit(imageSize, size);
      fixedZoomScale := fixedZoomScale * scale;
      if defaultScale > ZoomScale() {
        fixedZoomScale := defaultScale;
        fixedPanOffset := ZeroSize;
      }
    }

    /** A double tap (two fingers, twice): at the fitting zoom it zooms to
        twice that; at any other zoom it zooms back to fit. */
    method DoubleTap()
      requires Valid()
      modifies this
      ensures imageSize == old(imageSize) && geometrySize == old(geometrySize)
      ensures gestureZoomScale == old(gestureZoomScale) && gesturePanOffset == old(gesturePanOffset)
      ensures old(ZoomScale()) == GetScaleToFit(imageSize, geometrySize) ==>
        fixedZoomScale == 2.0 * GetScaleToFit(imageSize, geometrySize) && fixedPanOffset == old(fixedPanOffset)
      ensures old(ZoomScale()) != GetScaleToFit(imageSize, geometrySize) ==>
        fixedZoomScale == GetScaleToFit(imageSize, geometrySize) && fixedPanOffset == ZeroSize
    {
      var defaultScale := GetScaleToFit(imageSize, geometrySize);
      if defaultScale == ZoomScale() {
        fixedZoomScale := defaultScale * 2.0;
      } else {
        ZoomToFit(geometrySize);
      }
    }
  }

  lemma PositiveProduct(a: real, b: real)
    requires a > 0.0 && b > 0.0
    ensures a * b / 2.0 > 0.0
  {
  }

  /** The fitting scale of a positive image in a positive view is positive. */
  lemma FitScalePositive(imageSize: Size, size: Size)
    requires Positive(imageSize)
    ensures Positive(size) ==> GetScaleToFit(imageSize, size) > 0.0
  {
    if Positive(size) {
      assert size.width / imageSize.width > 0.0;
      assert size.height / imageSize.height > 0.0;
    }
  }

  /** calcPanableSpace(imageSize:in:): how far the image may move each way
      at a zoom, half of what the zoomed image overhangs the fitted one;
      nil unless zoomed in beyond the fitting scale. */
  function PanableSpace(image: Size, viewSize: Size, zoom: real): (space: Option<Size>)
    requires image.width != 0.0 && image.height != 0.0
    ensures space.None? <==> zoom <= GetScaleToFit(image, viewSize)
    ensures space.Some? ==>
      2.0 * space.value.width == image.width * zoom - image.width * GetScaleToFit(image, viewSize)
      && 2.0 * space.value.height == image.height * zoom - image.height * GetScaleToFit(image, viewSize)
    ensures space.Some? && Positive(image) ==> Positive(space.value)
  {
    var defaultZoomScale := GetScaleToFit(image, viewSize);
    if zoom <= defaultZoomScale then None
    else
      var space := Size(image.width * (zoom - defaultZoomScale) / 2.0,
                        image.height * (zoom - defaultZoomScale) / 2.0);
      assert Positive(image) ==> Positive(space) by {
        if Positive(image) {
          PositiveProduct(image.width, zoom - defaultZoomScale);
          PositiveProduct(image.height, zoom - defaultZoomScale);
        }
      }
      Some(space)
  }

  /** The pan a fixed and an in-flight offset give at a zoom. */
  function Pan(fixed: Size, gesture: Size, zoom: real): Size {
    Size((fixed.width + gesture.width) * zoom, (fixed.height + gesture.height) * zoom)
  }

  /** The pan reaches beyond the panable space on some axis. */
  predicate Exceeds(pan: Size, panableSpace: Size) {
    Abs(pan.width) > panableSpace.width || Abs(pan.height) > panableSpace.height
  }

  /** One axis of the clamp: the pan at the nearest edge of the space, or
      unchanged within it. */
  function ClampAxis(pan: real, space: real): (c: real)
    ensures space >= 0.0 ==> Abs(c) <= space
    ensures Abs(pan) <= space ==> c == pan
    ensures Abs(pan) > space ==> c == Sign(pan) * space
  {
    if Abs(pan) > space then space * Sign(pan) else pan
  }

  /** The fixed offset calcMaxiumOffset computes: each axis of the pan
      clamped to the panable space, divided back by the zoom. */
  function ClampOffset(pan: Size, panableSpace: Size, zoom: real): (offset: Size)
    requires zoom != 0.0
    ensures offset.width * zoom == ClampAxis(pan.width, panableSpace.width)
    ensures offset.height * zoom == ClampAxis(pan.height, panableSpace.height)
  {
    Size(ClampAxis(pan.width, panableSpace.width) / zoom, ClampAxis(pan.height, panableSpace.height) / zoom)
  }

  /** The fixed pan joined by a translation divided by `divisor`: 1 for
      the two-finger pan, the zoom for the drag gesture. */
  function JoinedPan(fixed: Size, translation: Size, divisor: real): (joined: Size)
    requires divisor != 0.0
    ensures (joined.width - fixed.width) * divisor == translation.width
    ensures (joined.height - fixed.height) * divisor == translation.height
  {
    Size(fixed.width + translation.width / divisor, fixed.height + translation.height / divisor)
  }

  /** The fixed pan once a pan gesture has ended: the moved offset if it
      stays within the panable space, otherwise calcMaxiumOffset of it. */
  function SettlePan(moved: Size, panableSpace: Size, zoom: real): (settled: Size)
    requires zoom != 0.0 && panableSpace.width >= 0.0 && panableSpace.height >= 0.0
    ensures !Exceeds(Pan(settled, ZeroSize, zoom), panableSpace)
    ensures !Exceeds(Pan(moved, ZeroSize, zoom), panableSpace) ==> settled == moved
  {
    var pan := Pan(moved, ZeroSize, zoom);
    if Exceeds(pan, panableSpace) then
      ClampedPanStaysInside(pan, panableSpace, zoom);
      ClampOffset(pan, panableSpace, zoom)
    else moved
  }

  /** With no pan in flight, the offset calcMaxiumOffset returns no longer
      exceeds a non-negative panable space: the clamp and the edge check
      agree. */
  lemma ClampedPanStaysInside(pan: Size, panableSpace: Size, zoom: real)
    requires zoom != 0.0 && panableSpace.width >= 0.0 && panableSpace.height >= 0.0
    ensures !Exceeds(Pan(ClampOffset(pan, panableSpace, zoom), ZeroSize, zoom), panableSpace)
  {
    var offset := ClampOffset(pan, panableSpace, zoom);
    var moved := Pan(offset, ZeroSize, zoom);
    assert moved.width == ClampAxis(pan.width, panableSpace.width) by {
      assert offset.width + 0.0 == offset.width;
    }
    assert moved.height == ClampAxis(pan.height, panableSpace.height) by {
      assert offset.height + 0.0 == offset.height;
    }
  }

  /** The clamp leaves the pan where it is exactly when the pan does not
      exceed the panable space. */
  lemma ClampKeepsOnlyInsidePan(pan: Size, panableSpace: Size, zoom: real)
    requires zoom != 0.0
    ensures Pan(ClampOffset(pan, panableSpace, zoom), ZeroSize, zoom) == pan <==> !Exceeds(pan, panableSpace)
  {
    var offset := ClampOffset(pan, panableSpace, zoom);
    var moved := Pan(offset, ZeroSize, zoom);
    assert moved.width == ClampAxis(pan.width, panableSpace.width) by {
      assert offset.width + 0.0 == offset.width;
    }
    assert moved.height == ClampAxis(pan.height, panableSpace.height) by {
      assert offset.height + 0.0 == offset.height;
    }
  }

  /** scaleByRoation: the preview shrinks a rotated image by up to a fifth,
      most at 45 degrees off the nearest right angle. */
  function ScaleByRotation(rotation: real): (scale: real)
    ensures 0.8 <= scale <= 1.0
  {
    var remainder := Abs(TruncatingRemainder90(rotation));
    var minimumDistance := Min(remainder, 90.0 - remainder);
    1.0 - minimumDistance / 45.0 / 5.0
  }

  /** `a.truncatingRemainder(dividingBy: 90)`: the remainder of division
      by 90 truncated toward zero, with the sign of the dividend. */
  function TruncatingRemainder90(a: real): (r: real)
    ensures a >= 0.0 ==> 0.0 <= r < 90.0
    ensures a < 0.0 ==> -90.0 < r <= 0.0
    ensures a - r == Trunc(a / 90.0) as real * 90.0
  {
    var t := Trunc(a / 90.0);
    a - t as real * 90.0
  }

  /** A real truncated toward zero. */
  function Trunc(q: real): (t: int)
    ensures q >= 0.0 ==> 0.0 <= q - t as real < 1.0
    ensures q < 0.0 ==> -1.0 < q - t as real <= 0.0
  {
    if q >= 0.0 then q.Floor else -((-q).Floor)
  }

  /** A right angle (any multiple of 90 degrees) is not shrunk. */
  lemma RightAnglesUnscaled(k: int)
    ensures ScaleByRotation(k as real * 90.0) == 1.0
  {
    var a := k as real * 90.0;
    var q := a / 90.0;
    assert q == k as real;
    assert q.Floor == k;
    assert (-q).Floor == -k;
  }

  /** Forty-five degrees off a right angle shrinks the most. */
  lemma HalfRightAngleScaled()
    ensures ScaleByRotation(45.0) == 0.8
  {
    assert (45.0 / 90.0).Floor == 0;
  }
}
