/**
 * The editor's state: the control values every filter panel reads and
 * writes, the cache of filter instances by name, the image size and the
 * view finder that a crop ratio places over the image.
 */
module EditingStateModel {
  import opened CoreTypes
  import FC = FilterCategories
  import CC = ColorChannelFilter

  /** A cached CIFilter instance, identified by reference. */
  type FilterRef = nat

  /** `dict[key]` as a Swift optional. */
  function Lookup<K, V>(m: map<K, V>, key: K): (r: Option<V>)
    ensures r.Some? <==> key in m
    ensures r.Some? ==> r.value == m[key]
  {
    if key in m then Some(m[key]) else None
  }

  /** ControlValue.defaultText */
  const DefaultText := "기본 텍스트"

  /** ControlValue: the values behind the filter controls. The drawing tool,
      the text colour and the font descriptor are UIKit objects and are not
      part of this model. */
  datatype ControlValue = ControlValue(
    isDrawing: bool,
    blurIntensity: real,
    averageLuminance: real,
    outlineControl: (real, real),
    bilateralControl: (real, real),
    vignetteControl: (real, real, real),
    fontSize: real,
    textStampControl: (real, real),
    textStampContent: string,
    thresholdBrightness: real,
    painterRadius: real,
    selectedLUTName: Option<string>,
    glitterAnglesAndRadius: map<real, real>,
    depthFocus: real,
    viewFinderRatio: Option<real>,
    viewFinderRect: Rect,
    rotation: real,
    basicColorControl: map<FC.SingleSliderFilterControl, real>,
    colorChannelControl: map<CC.Component, seq<real>>)
  {
    /** The brightness slider moved, or all three colour channels differ
        from their defaults. */
    predicate IsBrightnessChanged()
      ensures Lookup(basicColorControl, FC.Brightness) != Some(0.0) ==> IsBrightnessChanged()
      ensures Lookup(basicColorControl, FC.Brightness) == Some(0.0) ==>
        (IsBrightnessChanged() <==>
           forall c :: c in {CC.Red, CC.Green, CC.Blue} ==> Lookup(colorChannelControl, c) != Some(CC.EmptyValues))
    {
      Lookup(basicColorControl, FC.Brightness) != Lookup(Default.basicColorControl, FC.Brightness)
      || (Lookup(colorChannelControl, CC.Red) != Lookup(Default.colorChannelControl, CC.Red)
          && Lookup(colorChannelControl, CC.Blue) != Lookup(Default.colorChannelControl, CC.Blue)
          && Lookup(colorChannelControl, CC.Green) != Lookup(Default.colorChannelControl, CC.Green))
    }

    /** The saturation slider moved, or the channels are not all the same
        and at least one differs from its default. */
    predicate IsSaturationChanged()
      ensures Lookup(basicColorControl, FC.Saturation) != Some(1.0) ==> IsSaturationChanged()
      ensures Lookup(colorChannelControl, CC.Red) == Lookup(colorChannelControl, CC.Green)
                == Lookup(colorChannelControl, CC.Blue) ==>
        (IsSaturationChanged() <==> Lookup(basicColorControl, FC.Saturation) != Some(1.0))
    {
      var red := Lookup(colorChannelControl, CC.Red);
      var green := Lookup(colorChannelControl, CC.Green);
      var blue := Lookup(colorChannelControl, CC.Blue);
      Lookup(basicColorControl, FC.Saturation) != Lookup(Default.basicColorControl, FC.Saturation)
      || (!(red == blue && red == green)
          && (red != Lookup(Default.colorChannelControl, CC.Red)
              || blue != Lookup(Default.colorChannelControl, CC.Blue)
              || green != Lookup(Default.colorChannelControl, CC.Green)))
    }

    /** The remaining flags each compare one control with its default. */
    predicate IsContrastChanged()
      ensures IsContrastChanged() <==> Lookup(basicColorControl, FC.Contrast) != Some(1.0)
    {
      Lookup(basicColorControl, FC.Contrast) != Lookup(Default.basicColorControl, FC.Contrast)
    }
    predicate IsPainterChanged()
      ensures IsPainterChanged() <==> painterRadius != 0.0
    { painterRadius != Default.painterRadius }
    predicate IsToneCopyChanged()
      ensures IsToneCopyChanged() <==> depthFocus != 0.0
    { depthFocus != Default.depthFocus }
    predicate IsGlitterChanged()
      ensures IsGlitterChanged() <==> |glitterAnglesAndRadius| != 0
    { glitterAnglesAndRadius != Default.glitterAnglesAndRadius }
    predicate IsBilateralChanged()
      ensures IsBilateralChanged() <==> bilateralControl != (0.1, 0.1)
    { bilateralControl != Default.bilateralControl }
    predicate IsVignetteChanged()
      ensures IsVignetteChanged() <==> vignetteControl != (0.0, 0.0, 0.0)
    { vignetteControl != Default.vignetteControl }
    predicate IsOutlineChanged()
      ensures IsOutlineChanged() <==> outlineControl != (0.1, 0.1)
    { outlineControl != Default.outlineControl }
    predicate IsLutChanged()
      ensures IsLutChanged() <==> selectedLUTName != Default.selectedLUTName
    { selectedLUTName.Some? }

    /** Any of the change flags. */
    predicate AnyChanged() {
      IsBrightnessChanged() || IsSaturationChanged() || IsContrastChanged() || IsPainterChanged()
      || IsToneCopyChanged() || IsGlitterChanged() || IsBilateralChanged() || IsVignetteChanged()
      || IsOutlineChanged() || IsLutChanged()
    }
  }

  /** ControlValue.defaultValue */
  const Default := ControlValue(
    false, 10.0, 0.5, (0.1, 0.1), (0.1, 0.1), (0.0, 0.0, 0.0), 30.0, (1.0, 0.0), DefaultText,
    1.0, 0.0, None, map[], 0.0, None, ZeroRect, 0.0,
    map[FC.Brightness := 0.0, FC.Saturation := 1.0, FC.Contrast := 1.0],
    map[CC.Red := CC.EmptyValues, CC.Green := CC.EmptyValues, CC.Blue := CC.EmptyValues])

  /** No change flag is raised for the default controls. */
  lemma DefaultIsUnchanged()
    ensures !Default.AnyChanged()
  {
  }

  /** The brightness flag needs all three channels moved: moving only one
      colour channel counts as a saturation change, moving all three to the
      same values counts as a brightness change and not a saturation one. */
  lemma ChannelChangeFlags(c: ControlValue, values: seq<real>)
    requires c.basicColorControl == Default.basicColorControl
    requires values != CC.EmptyValues
    ensures c.colorChannelControl == Default.colorChannelControl[CC.Red := values] ==>
      !c.IsBrightnessChanged() && c.IsSaturationChanged()
    ensures c.colorChannelControl == map[CC.Red := values, CC.Green := values, CC.Blue := values] ==>
      c.IsBrightnessChanged() && !c.IsSaturationChanged()
  {
    var d := Default.colorChannelControl;
    if c.colorChannelControl == d[CC.Red := values] {
      assert Lookup(c.colorChannelControl, CC.Red) == Some(values);
      assert Lookup(c.colorChannelControl, CC.Blue) == Some(CC.EmptyValues) == Lookup(d, CC.Blue);
    }
    if c.colorChannelControl == map[CC.Red := values, CC.Green := values, CC.Blue := values] {
      assert Lookup(c.colorChannelControl, CC.Red) == Some(values);
      assert Lookup(c.colorChannelControl, CC.Green) == Some(values);
      assert Lookup(c.colorChannelControl, CC.Blue) == Some(values);
      assert Lookup(d, CC.Red) == Some(CC.EmptyValues);
    }
  }

  /** The view finder for a crop ratio (width / height) over an image: a
      ratio below one spans the full image height and is centred
      horizontally; any other spans the full width and is centred
      vertically. */
  function ViewFinderRect(imageSize: Size, ratio: real): (r: Rect)
    ensures ratio < 1.0 ==> r.y == 0.0 && r.h == imageSize.height
    ensures ratio >= 1.0 ==> r.x == 0.0 && r.w == imageSize.width
  {
    if ratio < 1.0 then
      var scaledWidth := imageSize.height * ratio;
      Rect((imageSize.width - scaledWidth) / 2.0, 0.0, scaledWidth, imageSize.height)
    else
      var scaledHeight := imageSize.width * 1.0 / ratio;
      Rect(0.0, (imageSize.height - scaledHeight) / 2.0, imageSize.width, scaledHeight)
  }

  /** The view finder has the requested aspect ratio and the image's centre. */
  lemma ViewFinderShape(imageSize: Size, ratio: real)
    ensures var r := ViewFinderRect(imageSize, ratio);
      r.w == ratio * r.h
      && r.x + r.w / 2.0 == imageSize.width / 2.0
      && r.y + r.h / 2.0 == imageSize.height / 2.0
  {
    if ratio >= 1.0 {
      var r := ViewFinderRect(imageSize, ratio);
      assert r.h * ratio == imageSize.width;
    }
  }

  /** For a positive image size and ratio, the view finder lies inside the
      image exactly when the ratio is on the side of the image's own ratio
      that its branch assumes: below one it must not exceed width / height,
      from one upward it must not fall short of it. A square ratio on a
      landscape image therefore overhangs the top and bottom. */
  lemma ViewFinderFits(imageSize: Size, ratio: real)
    requires imageSize.width > 0.0 && imageSize.height > 0.0 && ratio > 0.0
    ensures var r := ViewFinderRect(imageSize, ratio);
      (0.0 <= r.x && 0.0 <= r.y && r.x + r.w <= imageSize.width && r.y + r.h <= imageSize.height)
      <==> (if ratio < 1.0 then ratio * imageSize.height <= imageSize.width
            else imageSize.width <= ratio * imageSize.height)
  {
    var r := ViewFinderRect(imageSize, ratio);
    if ratio >= 1.0 {
      assert r.h * ratio == imageSize.width;
      assert r.h <= imageSize.height <==> r.h * ratio <= imageSize.height * ratio;
    } else {
      assert 0.0 <= r.w;
    }
  }

  class EditingState {
    /** Filter instances by name: the CoreImage name, or the filter type's name. */
    var applyingFilters: map<string, FilterRef>
    var control: ControlValue
    var imageSize: Option<Size>

    constructor ()
      ensures applyingFilters == map[] && control == Default && imageSize == None
    {
      applyingFilters := map[];
      control := Default;
      imageSize := None;
    }

    /** originalRatio: width / height of the image, nil before it is known. */
    function OriginalRatio(): (r: Option<real>)
      reads this
      requires imageSize.Some? ==> imageSize.value.height != 0.0
      ensures r.Some? <==> imageSize.Some?
      ensures r.Some? ==> r.value * imageSize.value.height == imageSize.value.width
    {
      if imageSize.Some? then Some(imageSize.value.width / imageSize.value.height) else None
    }

    /** setImageSize: the view finder resets to the whole image. */
    method SetImageSize(size: Size)
      modifies this
      ensures imageSize == Some(size)
      ensures control == old(control).(viewFinderRect := Rect(0.0, 0.0, size.width, size.height))
      ensures applyingFilters == old(applyingFilters)
    {
      imageSize := Some(size);
      control := control.(viewFinderRect := Rect(0.0, 0.0, size.width, size.height));
    }

    /** getFilter(_:name:): the filter under the key (the given CoreImage
        name, or else the type's name), created from `created` the first
        time the key is asked for and the cached one afterwards. */
    method GetFilter(typeName: string, name: Option<string>, created: FilterRef) returns (filter: FilterRef)
      modifies this
      ensures var key := if name.Some? then name.value else typeName;
        key in applyingFilters && filter == applyingFilters[key]
        && (key in old(applyingFilters) ==> applyingFilters == old(applyingFilters))
        && (key !in old(applyingFilters) ==> applyingFilters == old(applyingFilters)[key := created])
      ensures control == old(control) && imageSize == old(imageSize)
    {
      var key := if name.Some? then name.value else typeName;
      if key !in applyingFilters {
        applyingFilters := applyingFilters[key := created];
      }
      filter := applyingFilters[key];
    }

    /** getMetalFilter(initClosure:): the same cache, keyed by the type's name. */
    method GetMetalFilter(typeName: string, created: FilterRef) returns (filter: FilterRef)
      modifies this
      ensures typeName in applyingFilters && filter == applyingFilters[typeName]
      ensures typeName in old(applyingFilters) ==> applyingFilters == old(applyingFilters)
      ensures typeName !in old(applyingFilters) ==> applyingFilters == old(applyingFilters)[typeName := created]
      ensures control == old(control) && imageSize == old(imageSize)
    {
      if typeName !in applyingFilters {
        applyingFilters := applyingFilters[typeName := created];
      }
      filter := applyingFilters[typeName];
    }

    /** reset: default controls and no cached filters. */
    method Reset()
      modifies this
      ensures control == Default && applyingFilters == map[]
      ensures imageSize == old(imageSize)
    {
      control := Default;
      applyingFilters := map[];
    }

    /** clearTextIfDefault: the stamp text is emptied only while it is the
        placeholder text. */
    method ClearTextIfDefault()
      modifies this
      ensures old(control.textStampContent) == DefaultText ==>
        control == old(control).(textStampContent := "")
      ensures old(control.textStampContent) != DefaultText ==> control == old(control)
      ensures applyingFilters == old(applyingFilters) && imageSize == old(imageSize)
    {
      if control.textStampContent == DefaultText {
        control := control.(textStampContent := "");
      }
    }

    /** setViewFinderRatio: with a ratio and a known image size the view
        finder is placed for the ratio; otherwise only the ratio is cleared. */
    method SetViewFinderRatio(ratio: Option<real>)
      modifies this
      ensures ratio.None? || imageSize.None? ==>
        control == old(control).(viewFinderRatio := None)
      ensures ratio.Some? && imageSize.Some? ==>
        control == old(control).(viewFinderRatio := ratio,
                                 viewFinderRect := ViewFinderRect(imageSize.value, ratio.value))
      ensures applyingFilters == old(applyingFilters) && imageSize == old(imageSize)
    {
      if ratio.None? || imageSize.None? {
        control := control.(viewFinderRatio := None);
        return;
      }
      var size := imageSize.value;
      var r := ratio.value;
      var rect: Rect;
      if r < 1.0 {
        var scaledWidth := size.height * r;
        var newOriginX := (size.width - scaledWidth) / 2.0;
        rect := Rect(newOriginX, 0.0, scaledWidth, size.height);
      } else {
        var scaledHeight := size.width * 1.0 / r;
        var newOriginY := (size.height - scaledHeight) / 2.0;
        rect := Rect(0.0, newOriginY, size.width, scaledHeight);
      }
      control := control.(viewFinderRect := rect);
      control := control.(viewFinderRatio := ratio);
    }
  }

  /** Asking twice for the same filter yields the same instance, however
      the second request would have created it. */
  method GetFilterTwice(s: EditingState, typeName: string, name: Option<string>, first: FilterRef, second: FilterRef)
    returns (a: FilterRef, b: FilterRef)
    modifies s
    ensures a == b
  {
    a := s.GetFilter(typeName, name, first);
    b := s.GetFilter(typeName, name, second);
  }

  /** After a ratio is set on a known image, the view finder has that aspect
      ratio and the image's centre. */
  method PlaceViewFinder(s: EditingState, size: Size, ratio: real)
    modifies s
    ensures s.control.viewFinderRatio == Some(ratio)
    ensures s.control.viewFinderRect.w == ratio * s.control.viewFinderRect.h
    ensures s.control.viewFinderRect.x + s.control.viewFinderRect.w / 2.0 == size.width / 2.0
    ensures s.control.viewFinderRect.y + s.control.viewFinderRect.h / 2.0 == size.height / 2.0
  {
    s.SetImageSize(size);
    s.SetViewFinderRatio(Some(ratio));
    ViewFinderShape(size, ratio);
  }
}
