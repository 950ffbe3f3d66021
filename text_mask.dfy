/**
 * The TextMask filter: renders a text label in a font scaled to the image
 * and places it at one of five positions of the image's extent.
 *
 * The UIKit rendering of the label (its size and pixels) is outside the
 * model: the rendered label image is an argument of `OutputImage`.
 */
module TextMaskFilter {
  import opened CoreTypes

  const InputTextKey := "text"
  const FontKey := "font"
  const AlignmentKey := "alignment"

  /** The type name an `EnumValue` carries when it is a TextMask.Alignment. */
  const AlignmentTypeName := "TextMask.Alignment"

  /** TextMask.Alignment, a String-backed enumeration. */
  datatype Alignment = TopLeft | TopRight | Center | BottomLeft | BottomRight {
    function RawValue(): string {
      match this
      case TopLeft => "topLeft"
      case TopRight => "topRight"
      case Center => "center"
      case BottomLeft => "bottomLeft"
      case BottomRight => "bottomRight"
    }
  }

  function AlignmentFromRaw(raw: string): (a: Option<Alignment>)
    ensures a.Some? ==> a.value.RawValue() == raw
    ensures forall b: Alignment :: b.RawValue() == raw ==> a == Some(b)
  {
    if raw == "topLeft" then Some(TopLeft)
    else if raw == "topRight" then Some(TopRight)
    else if raw == "center" then Some(Center)
    else if raw == "bottomLeft" then Some(BottomLeft)
    else if raw == "bottomRight" then Some(BottomRight)
    else None
  }

  /** `value as? Alignment` */
  function AsAlignment(value: Option<Value>): Option<Alignment> {
    if value.Some? && value.value.EnumValue? && value.value.typeName == AlignmentTypeName
    then AlignmentFromRaw(value.value.raw)
    else None
  }

  /** NSTextAlignment, as far as the label uses it. */
  datatype TextAlignment = Left | CenterAligned | Right

  /** The label's text alignment for a placement: left for the left
      corners, right for the right corners, centred for the centre. */
  function TextAlignmentFor(alignment: Alignment): (t: TextAlignment)
    ensures t == Left <==> alignment in {TopLeft, BottomLeft}
    ensures t == Right <==> alignment in {TopRight, BottomRight}
    ensures t == CenterAligned <==> alignment == Center
  {
    match alignment
    case TopLeft | BottomLeft => Left
    case Center => CenterAligned
    case TopRight | BottomRight => Right
  }

  /** The font scale for an image extent: the shorter side of the extent's
      (unstandardised) size over 300, kept within [1, 20]. */
  function NormalizeFactor(extent: Rect): (f: real)
    ensures 1.0 <= f <= 20.0
    ensures 300.0 <= Min(extent.w, extent.h) <= 6000.0 ==> f == Min(extent.w, extent.h) / 300.0
    ensures Min(extent.w, extent.h) <= 300.0 ==> f == 1.0
    ensures Min(extent.w, extent.h) >= 6000.0 ==> f == 20.0
  {
    Min(Max(Min(extent.w, extent.h) / 300.0, 1.0), 20.0)
  }

  /** getOffset: the origin of the label for a placement inside an extent. */
  function GetOffset(alignment: Alignment, extent: Rect, labelSize: Size): (p: Point)
    ensures alignment == Center ==>
      p.x + labelSize.width / 2.0 == extent.MidX() && p.y + labelSize.height / 2.0 == extent.MidY()
    ensures alignment in {TopLeft, BottomLeft} ==> p.x == extent.MinX()
    ensures alignment in {TopRight, BottomRight} ==> p.x + labelSize.width == extent.MaxX()
    ensures alignment in {BottomLeft, BottomRight} ==> p.y == extent.MinY()
    ensures alignment in {TopLeft, TopRight} ==> p.y + labelSize.height == extent.MaxY()
  {
    match alignment
    case BottomLeft => Point(extent.MinX(), extent.MinY())
    case BottomRight => Point(extent.MaxX() - labelSize.width, extent.MinY())
    case Center => Point(extent.MidX() - labelSize.width / 2.0, extent.MidY() - labelSize.height / 2.0)
    case TopLeft => Point(extent.MinX(), extent.MaxY() - labelSize.height)
    case TopRight => Point(extent.MaxX() - labelSize.width, extent.MaxY() - labelSize.height)
  }

  /** A label no larger than the extent, placed at any of the five
      positions, lies wholly inside the extent. */
  lemma {:induction false} LabelInsideExtent(alignment: Alignment, extent: Rect, labelSize: Size)
    requires 0.0 <= labelSize.width <= extent.Width()
    requires 0.0 <= labelSize.height <= extent.Height()
    ensures var p := GetOffset(alignment, extent, labelSize);
      extent.MinX() <= p.x && p.x + labelSize.width <= extent.MaxX()
      && extent.MinY() <= p.y && p.y + labelSize.height <= extent.MaxY()
  {
    var p := GetOffset(alignment, extent, labelSize);
    match alignment {
      case Center =>
        assert extent.MidX() - extent.MinX() == extent.Width() / 2.0;
        assert extent.MidY() - extent.MinY() == extent.Height() / 2.0;
      case _ =>
    }
  }

  /** A label image moved by a translation. */
  function Translated(image: Image, offset: Point): (moved: Image)
    ensures moved.Extent().w == image.Extent().w && moved.Extent().h == image.Extent().h
    ensures moved.Extent().x == image.Extent().x + offset.x && moved.Extent().y == image.Extent().y + offset.y
  {
    var e := image.Extent();
    Applied("transformed", [image], [offset.x, offset.y], Rect(e.x + offset.x, e.y + offset.y, e.w, e.h))
  }

  class TextMask {
    var inputImage: Option<Image>
    var text: Option<string>
    var font: Font
    var alignment: Alignment

    /** The default font: the system font of size 20. */
    static const SystemFont := Font("system", 20.0)

    constructor ()
      ensures inputImage.None? && text.None? && font == SystemFont && alignment == Center
    {
      inputImage := None;
      text := None;
      font := SystemFont;
      alignment := Center;
    }

    /** setValue(_:forKey:): each key takes a value of its own type only;
        a value of another type, or nil, leaves everything as it was. */
    method SetValue(value: Option<Value>, key: string)
      modifies this
      ensures inputImage ==
        if key == InputImageKey && value.Some? && value.value.ImageValue? then Some(value.value.image) else old(inputImage)
      ensures text ==
        if key == InputTextKey && value.Some? && value.value.StringValue? then Some(value.value.s) else old(text)
      ensures font ==
        if key == FontKey && value.Some? && value.value.FontValue? then value.value.font else old(font)
      ensures alignment ==
        if key == AlignmentKey && AsAlignment(value).Some? then AsAlignment(value).value else old(alignment)
    {
      if key == InputImageKey && value.Some? && value.value.ImageValue? {
        inputImage := Some(value.value.image);
      } else if key == InputTextKey && value.Some? && value.value.StringValue? {
        text := Some(value.value.s);
      } else if key == FontKey && value.Some? && value.value.FontValue? {
        font := value.value.font;
      } else if key == AlignmentKey && AsAlignment(value).Some? {
        alignment := AsAlignment(value).value;
      }
    }

    /** The font the label is drawn in: the chosen font scaled by the
        normalise factor of the input's extent. */
    function LabelFont(): (f: Font)
      reads this
      requires inputImage.Some?
      ensures f.descriptor == font.descriptor
      ensures font.pointSize >= 0.0 ==> font.pointSize <= f.pointSize <= 20.0 * font.pointSize
    {
      var factor := NormalizeFactor(inputImage.value.Extent());
      assert font.pointSize >= 0.0 ==> font.pointSize * 1.0 <= font.pointSize * factor <= font.pointSize * 20.0;
      Font(font.descriptor, font.pointSize * factor)
    }

    /** The label's text alignment. */
    function LabelAlignment(): TextAlignment
      reads this
    {
      TextAlignmentFor(alignment)
    }

    /** outputImage: nil without an input image or a text, and nil when the
        label could not be rendered (`renderedLabel` is None); otherwise the
        rendered label moved to its placement in the input's extent. */
    function OutputImage(renderedLabel: Option<Image>): (out: Option<Image>)
      reads this
      ensures inputImage.None? || text.None? || renderedLabel.None? ==> out.None?
      ensures inputImage.Some? && text.Some? && renderedLabel.Some? ==>
        out == Some(Translated(renderedLabel.value,
                               GetOffset(alignment, inputImage.value.Extent(), renderedLabel.value.Extent().RawSize())))
      ensures out.Some? ==>
        var labelExtent := renderedLabel.value.Extent();
        var origin := GetOffset(alignment, inputImage.value.Extent(), labelExtent.RawSize());
        out.value.Extent().x == labelExtent.x + origin.x && out.value.Extent().y == labelExtent.y + origin.y
        && out.value.Extent().w == labelExtent.w && out.value.Extent().h == labelExtent.h
    {
      if inputImage.None? || text.None? then None
      else match renderedLabel
        case None => None
        case Some(rendered) =>
          Some(Translated(rendered, GetOffset(alignment, inputImage.value.Extent(), rendered.Extent().RawSize())))
    }
  }

  /** A label rendered at the origin and no larger than the input lands
      inside the input's extent, wherever it is placed. */
  lemma RenderedLabelInsideInput(f: TextMask, labelImage: Image)
    requires f.inputImage.Some? && f.text.Some?
    requires labelImage.Extent().x == 0.0 && labelImage.Extent().y == 0.0
    requires 0.0 <= labelImage.Extent().w <= f.inputImage.value.Extent().Width()
    requires 0.0 <= labelImage.Extent().h <= f.inputImage.value.Extent().Height()
    ensures var out := f.OutputImage(Some(labelImage));
      out.Some?
      && f.inputImage.value.Extent().MinX() <= out.value.Extent().MinX()
      && out.value.Extent().MaxX() <= f.inputImage.value.Extent().MaxX()
      && f.inputImage.value.Extent().MinY() <= out.value.Extent().MinY()
      && out.value.Extent().MaxY() <= f.inputImage.value.Extent().MaxY()
  {
    LabelInsideExtent(f.alignment, f.inputImage.value.Extent(), labelImage.Extent().RawSize());
  }
}
