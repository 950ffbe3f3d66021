/**
 * The ColorChannel filter: per-channel adjustments at four brightness
 * levels, with the level boundaries shifted by the image's average
 * luminance.
 */
module ColorChannelFilter {
  import opened CoreTypes

  /** InputParameter.Component */
  datatype Component = Red | Green | Blue {
    function RawValue(): nat {
      match this
      case Red => 0
      case Green => 1
      case Blue => 2
    }

    /** The key value(forKey:) reads this component's values under. */
    function Key(): string {
      match this
      case Red => "red"
      case Green => "green"
      case Blue => "blue"
    }
  }

  /** InputParameter.Range, with its raw values. */
  datatype Range = Black | Shadow | Highlight | White {
    function RawValue(): real {
      match this
      case Black => 0.25
      case Shadow => 0.5
      case Highlight => 0.75
      case White => 1.0
    }
  }

  /** ColorChannel.emptyValues */
  const EmptyValues: seq<real> := [0.0, 0.0, 0.0, 0.0]

  /** The default brightness boundaries (dark, shadow, highlight, white). */
  const DefaultBoundaries: seq<real> := [0.0, 0.4, 0.7, 1.0]

  /** `values[range] ?? 0` */
  function ValueOrZero(values: map<Range, real>, range: Range): real {
    if range in values then values[range] else 0.0
  }

  /** The four values setValue(for:values:with:) stores, in the order
      black, shadow, highlight, white. */
  function SelectedValues(values: map<Range, real>): (r: seq<real>)
    ensures |r| == 4
    ensures forall range :: range !in values ==> r[Index(range)] == 0.0
    ensures forall range :: range in values ==> r[Index(range)] == values[range]
  {
    [ValueOrZero(values, Black), ValueOrZero(values, Shadow), ValueOrZero(values, Highlight), ValueOrZero(values, White)]
  }

  /** The position of a range in SelectedValues. */
  function Index(range: Range): nat {
    match range
    case Black => 0
    case Shadow => 1
    case Highlight => 2
    case White => 3
  }

  /** The luminance shift `pow(averageLumiance - 0.5, 3) * 10`. */
  function Intercept(averageLumiance: real): real {
    var d := averageLumiance - 0.5;
    d * d * d * 10.0
  }

  lemma CubeSign(d: real)
    ensures d >= 0.0 ==> d * d * d >= 0.0
    ensures d <= 0.0 ==> d * d * d <= 0.0
  {
    assert d * d >= 0.0;
    if d >= 0.0 {
      assert (d * d) * d >= 0.0;
    } else {
      assert (d * d) * d <= 0.0;
    }
  }

  /** The `ranges` vector of outputImage: the default boundaries shifted by
      the intercept, the lowest clamped at 0 and the highest at 1. */
  function Ranges(averageLumiance: real): (r: seq<real>)
    ensures |r| == 4
  {
    var intercept := Intercept(averageLumiance);
    [Max(DefaultBoundaries[0] + intercept, 0.0), DefaultBoundaries[1] + intercept,
     DefaultBoundaries[2] + intercept, Min(DefaultBoundaries[3] + intercept, 1.0)]
  }

  /** The boundaries stay in [0, 1] at the ends, the middle two keep their
      distance of 0.3, and a mid-grey image gets the default boundaries.
      A brighter than mid-grey image moves the boundaries up, a darker one down. */
  lemma RangesProperties(averageLumiance: real)
    ensures var r := Ranges(averageLumiance);
      0.0 <= r[0] && r[3] <= 1.0 && r[2] - r[1] == 0.3
    ensures averageLumiance == 0.5 ==> Ranges(averageLumiance) == DefaultBoundaries
    ensures averageLumiance >= 0.5 ==> Ranges(averageLumiance)[1] >= 0.4 && Ranges(averageLumiance)[3] == 1.0
    ensures averageLumiance <= 0.5 ==> Ranges(averageLumiance)[1] <= 0.4 && Ranges(averageLumiance)[0] == 0.0
  {
    CubeSign(averageLumiance - 0.5);
  }

  class ColorChannel {
    var inputImage: Option<Image>
    var red: seq<real>
    var green: seq<real>
    var blue: seq<real>
    var averageLumiance: real

    constructor ()
      ensures inputImage == None && red == EmptyValues && green == EmptyValues && blue == EmptyValues
      ensures averageLumiance == 0.5
    {
      inputImage := None;
      red, green, blue := EmptyValues, EmptyValues, EmptyValues;
      averageLumiance := 0.5;
    }

    /** The stored values of one component. */
    function ValuesOf(component: Component): seq<real>
      reads this
    {
      match component
      case Red => red
      case Green => green
      case Blue => blue
    }

    /** setValue(_:forKey:): only the input image can be set this way. */
    method SetValue(value: Option<Value>, key: string)
      modifies this
      ensures key == InputImageKey ==>
        inputImage == (if value.Some? && value.value.ImageValue? then Some(value.value.image) else None)
      ensures key != InputImageKey ==> inputImage == old(inputImage)
      ensures red == old(red) && green == old(green) && blue == old(blue) && averageLumiance == old(averageLumiance)
    {
      if key == InputImageKey {
        inputImage := if value.Some? && value.value.ImageValue? then Some(value.value.image) else None;
      }
    }

    /** setValue(for:values:with:): the component gets the four values, a
        missing range as 0; the others keep theirs; the luminance changes
        only when one is given. */
    method SetValueFor(component: Component, values: map<Range, real>, luminance: Option<real>)
      modifies this
      ensures ValuesOf(component) == SelectedValues(values)
      ensures forall other :: other != component ==> ValuesOf(other) == old(ValuesOf(other))
      ensures averageLumiance == if luminance.Some? then luminance.value else old(averageLumiance)
      ensures inputImage == old(inputImage)
    {
      var selectedValues := SelectedValues(values);
      averageLumiance := if luminance.Some? then luminance.value else averageLumiance;
      match component
      case Red => red := selectedValues;
      case Green => green := selectedValues;
      case Blue => blue := selectedValues;
    }

    /** value(forKey:) */
    function ValueFor(key: string): (v: Option<Value>)
      reads this
      ensures key == "red" ==> v == Some(RealsValue(red))
      ensures key == "blue" ==> v == Some(RealsValue(blue))
      ensures key == "green" ==> v == Some(RealsValue(green))
      ensures key == "averageLumiance" ==> v == Some(RealValue(averageLumiance))
      ensures key !in {"red", "blue", "green", "averageLumiance"} ==> v == None
    {
      if key == "red" then Some(RealsValue(red))
      else if key == "blue" then Some(RealsValue(blue))
      else if key == "green" then Some(RealsValue(green))
      else if key == "averageLumiance" then Some(RealValue(averageLumiance))
      else None
    }

    /** outputImage: the colorChannel kernel over the input with the three
        component vectors and the ranges vector; nothing without an input. */
    function OutputImage(): (out: Option<Image>)
      reads this
      requires |red| == 4 && |green| == 4 && |blue| == 4
      ensures inputImage.None? <==> out.None?
      ensures out.Some? ==> out.value.Extent() == inputImage.value.Extent()
      ensures out.Some? ==>
        out.value.Applied? && out.value.kernel == "colorChannel" && out.value.inputs == [inputImage.value]
        && |out.value.args| == 16 && out.value.args[12..] == Ranges(averageLumiance)
      ensures out.Some? ==> forall c: Component ::
        out.value.args[4 * c.RawValue()..4 * c.RawValue() + 4] == ValuesOf(c)
    {
      match inputImage
      case None => None
      case Some(input) =>
        Some(Applied("colorChannel", [input], red + green + blue + Ranges(averageLumiance), input.Extent()))
    }
  }

  /** Storing values for any component: they read back under the
      component's name, the other components keep theirs, and with an input
      image they are the component's vector among the kernel's arguments. */
  method SetThenRead(f: ColorChannel, c: Component, values: map<Range, real>) returns (read: Option<Value>, out: Option<Image>)
    requires |f.red| == 4 && |f.green| == 4 && |f.blue| == 4
    modifies f
    ensures read == Some(RealsValue(SelectedValues(values)))
    ensures forall other :: other != c ==> f.ValuesOf(other) == old(f.ValuesOf(other))
    ensures old(f.inputImage).Some? ==>
      out.Some? && out.value.Applied? && |out.value.args| == 16
      && out.value.args[4 * c.RawValue()..4 * c.RawValue() + 4] == SelectedValues(values)
  {
    f.SetValueFor(c, values, None);
    assert |f.ValuesOf(Red)| == 4 && |f.ValuesOf(Green)| == 4 && |f.ValuesOf(Blue)| == 4;
    read := f.ValueFor(c.Key());
    out := f.OutputImage();
  }
}
