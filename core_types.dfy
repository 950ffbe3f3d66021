/**
 * Value types shared by the editor's filters and view models: CoreGraphics
 * geometry, Swift's ClosedRange, a symbolic stand-in for CoreImage images,
 * and the dynamically typed values that `setValue(_:forKey:)` and
 * `value(forKey:)` exchange.
 *
 * CGFloat is modelled as `real` (exact arithmetic, no NaN or infinity).
 */
module CoreTypes {

  datatype Option<+T> = None | Some(value: T)

  /** CGPoint */
  datatype Point = Point(x: real, y: real)

  /** CGSize */
  datatype Size = Size(width: real, height: real)

  /** CGRect: an origin and a size whose components may be negative. The
      derived accessors follow CoreGraphics and standardise the rectangle. */
  datatype Rect = Rect(x: real, y: real, w: real, h: real) {
    function MinX(): real { if w < 0.0 then x + w else x }
    function MaxX(): real { if w < 0.0 then x else x + w }
    function MinY(): real { if h < 0.0 then y + h else y }
    function MaxY(): real { if h < 0.0 then y else y + h }
    function MidX(): real { (MinX() + MaxX()) / 2.0 }
    function MidY(): real { (MinY() + MaxY()) / 2.0 }
    function Width(): (r: real)
      ensures r >= 0.0 && r == MaxX() - MinX()
    { if w < 0.0 then -w else w }
    function Height(): (r: real)
      ensures r >= 0.0 && r == MaxY() - MinY()
    { if h < 0.0 then -h else h }
    /** CGRect.size: the stored width and height, signs kept. */
    function RawSize(): (s: Size)
      ensures w >= 0.0 && h >= 0.0 ==> s.width == Width() && s.height == Height()
    { Size(w, h) }
  }

  const ZeroRect := Rect(0.0, 0.0, 0.0, 0.0)

  /** Swift's ClosedRange<CGFloat>; constructing one with lower > upper traps. */
  datatype ClosedRange = ClosedRange(lower: real, upper: real) {
    predicate Valid() { lower <= upper }
    predicate Contains(v: real) { lower <= v <= upper }
  }

  /** A CIImage, described by how it was made. `Applied` records a kernel or a
      built-in CoreImage filter applied to input images with scalar arguments
      over an explicit extent. */
  datatype Image =
    | EmptyImage
    | Picture(id: nat, extent: Rect)
    | Applied(kernel: string, inputs: seq<Image>, args: seq<real>, extent: Rect)
  {
    function Extent(): Rect {
      match this
      case EmptyImage => ZeroRect
      case Picture(_, e) => e
      case Applied(_, _, _, e) => e
    }
  }

  /** UIFont: what the filters read of it. */
  datatype Font = Font(descriptor: string, pointSize: real)

  /** A value of Swift type `Any`, as passed to `setValue(_:forKey:)` and
      returned by `value(forKey:)`. An enumeration value carries the name of
      its type, so that a cast `as? T` succeeds only for values of type T. */
  datatype Value =
    | RealValue(r: real)
    | IntValue(i: int)
    | BoolValue(b: bool)
    | StringValue(s: string)
    | ImageValue(image: Image)
    | RealsValue(values: seq<real>)
    | RectValue(rect: Rect)
    | RectsValue(rects: seq<Rect>)
    | FontValue(font: Font)
    | EnumValue(typeName: string, raw: string)

  // CoreImage parameter keys (the string values of the kCIInput…Key constants).
  const InputImageKey := "inputImage"
  const InputMaskImageKey := "inputMaskImage"
  const InputIntensityKey := "inputIntensity"
  const InputRadiusKey := "inputRadius"
  const InputExtentKey := "inputExtent"
  const InputBiasKey := "inputBias"
  const InputWeightsKey := "inputWeights"
  const InputScaleKey := "inputScale"
  const InputBrightnessKey := "inputBrightness"
  const InputContrastKey := "inputContrast"
  const InputSaturationKey := "inputSaturation"
  const InputColorKey := "inputColor"
  const InputBackgroundImageKey := "inputBackgroundImage"
  const InputAngleKey := "inputAngle"

  /** Double.pi */
  const Pi: real := 3.141592653589793

  function Min(a: real, b: real): (r: real)
    ensures r <= a && r <= b && (r == a || r == b)
  { if a <= b then a else b }

  function Max(a: real, b: real): (r: real)
    ensures r >= a && r >= b && (r == a || r == b)
  { if a >= b then a else b }

  function Abs(a: real): (r: real)
    ensures r >= 0.0 && (r == a || r == -a)
  { if a < 0.0 then -a else a }
}
