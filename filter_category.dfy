/**
 * The filter catalogue: the five control enumerations, their raw names and
 * parameter ranges, the crop presets, and FilterCategory, a menu entry
 * identified by the raw name of the control it was built from.
 */
module FilterCategories {
  import opened CoreTypes

  datatype DrawableFilterControl = MaskBlur | Drawing {
    function RawValue(): string {
      match this
      case MaskBlur => "maskBlur"
      case Drawing => "drawing"
    }
  }

  function DrawableFromRaw(raw: string): (r: Option<DrawableFilterControl>)
    ensures r.Some? ==> r.value.RawValue() == raw
    ensures r.None? ==> forall f: DrawableFilterControl :: f.RawValue() != raw
  {
    if raw == "maskBlur" then Some(MaskBlur)
    else if raw == "drawing" then Some(Drawing)
    else None
  }

  datatype CropRatioPreset = H1v1 | H2v3 | H3v4 | H9v16 | H3v2 | H4v3 | H16v9 {
    function RawValue(): string {
      match this
      case H1v1 => "h1v1"
      case H2v3 => "h2v3"
      case H3v4 => "h3v4"
      case H9v16 => "h9v16"
      case H3v2 => "h3v2"
      case H4v3 => "h4v3"
      case H16v9 => "h16v9"
    }

    /** ratio, as the source has it: the 16:9 preset answers 19/9. */
    function RatioAsWritten(): real {
      match this
      case H1v1 => 1.0
      case H2v3 => 2.0 / 3.0
      case H3v4 => 3.0 / 4.0
      case H9v16 => 9.0 / 16.0
      case H3v2 => 3.0 / 2.0
      case H4v3 => 4.0 / 3.0
      case H16v9 => 19.0 / 9.0
    }

    /** ratio (width / height), with the 16:9 preset answering 16/9. */
    function Ratio(): (r: real)
      ensures r > 0.0
      ensures this != H16v9 ==> r == RatioAsWritten()
    {
      match this
      case H1v1 => 1.0
      case H2v3 => 2.0 / 3.0
      case H3v4 => 3.0 / 4.0
      case H9v16 => 9.0 / 16.0
      case H3v2 => 3.0 / 2.0
      case H4v3 => 4.0 / 3.0
      case H16v9 => 16.0 / 9.0
    }
  }

  /** CropRatioPreset.horizontal */
  const Horizontal: seq<CropRatioPreset> := [H1v1, H3v2, H4v3, H16v9]
  /** CropRatioPreset.vertical */
  const Vertical: seq<CropRatioPreset> := [H1v1, H2v3, H3v4, H9v16]

  // A preset's raw name "h<width>v<height>" spells its proportions.

  function DigitValue(ch: char): Option<nat> {
    if '0' <= ch <= '9' then Some(ch as int - '0' as int) else None
  }

  /** The decimal number a non-empty string of digits spells. */
  function Number(s: string): (r: Option<nat>)
    ensures r.Some? ==> |s| > 0
  {
    if |s| == 0 then None
    else if |s| == 1 then DigitValue(s[0])
    else
      match (Number(s[..|s| - 1]), DigitValue(s[|s| - 1]))
      case (Some(high), Some(low)) => Some(high * 10 + low)
      case _ => None
  }

  /** (width, height) read from a name "h<width>v<height>". */
  function Proportion(name: string): (r: Option<(nat, nat)>)
  {
    if |name| < 4 || name[0] != 'h' then None
    else if name[2] == 'v' then
      match (Number(name[1..2]), Number(name[3..]))
      case (Some(w), Some(h)) => Some((w, h))
      case _ => None
    else if name[3] == 'v' then
      match (Number(name[1..3]), Number(name[4..]))
      case (Some(w), Some(h)) => Some((w, h))
      case _ => None
    else None
  }

  /** Every preset's ratio is the width over the height its name spells. */
  lemma RatioMatchesName(p: CropRatioPreset)
    ensures Proportion(p.RawValue()).Some?
    ensures var (w, h) := Proportion(p.RawValue()).value; h > 0 && p.Ratio() == w as real / h as real
  {
    match p
    case H1v1 =>
      assert Number("1") == Some(1);
    case H2v3 =>
      assert Number("2") == Some(2) && Number("3") == Some(3);
    case H3v4 =>
      assert Number("3") == Some(3) && Number("4") == Some(4);
    case H9v16 =>
      assert "h9v16"[1..2] == "9" && "h9v16"[3..] == "16";
      assert Number("1") == Some(1);
      assert Number("16") == Some(16);
    case H3v2 =>
      assert Number("3") == Some(3) && Number("2") == Some(2);
    case H4v3 =>
      assert Number("4") == Some(4) && Number("3") == Some(3);
    case H16v9 =>
      assert "h16v9"[1..3] == "16" && "h16v9"[4..] == "9";
      assert Number("1") == Some(1);
      assert Number("16") == Some(16);
  }

  /** The ratio as written disagrees with the name of the 16:9 preset. */
  lemma {:induction false} RatioAsWrittenMismatch()
    ensures Proportion(H16v9.RawValue()) == Some((16, 9))
    ensures H16v9.RatioAsWritten() != 16.0 / 9.0
  {
    assert "h16v9"[1..3] == "16" && "h16v9"[4..] == "9";
    assert Number("1") == Some(1);
    assert Number("16") == Some(16);
  }

  /** Horizontal presets are at least as wide as tall, vertical ones at most. */
  lemma PresetOrientation()
    ensures forall p :: p in Horizontal ==> p.Ratio() >= 1.0
    ensures forall p :: p in Vertical ==> p.Ratio() <= 1.0
    ensures forall p: CropRatioPreset :: p in Horizontal || p in Vertical
  {
    forall p: CropRatioPreset ensures p in Horizontal || p in Vertical {
      match p
      case H1v1 | H3v2 | H4v3 | H16v9 => assert p in Horizontal;
      case H2v3 | H3v4 | H9v16 => assert p in Vertical;
    }
  }

  datatype DistortionFilterControl = Rotate | Perspective | Crop {
    function RawValue(): string {
      match this
      case Rotate => "rotate"
      case Perspective => "perspective"
      case Crop => "crop"
    }
  }

  function DistortionFromRaw(raw: string): (r: Option<DistortionFilterControl>)
    ensures r.Some? ==> r.value.RawValue() == raw
    ensures r.None? ==> forall f: DistortionFilterControl :: f.RawValue() != raw
  {
    if raw == "rotate" then Some(Rotate)
    else if raw == "perspective" then Some(Perspective)
    else if raw == "crop" then Some(Crop)
    else None
  }

  datatype OutlineFilter = Color | Grayscale {
    /** tunableFactor */
    function TunableFactor(): (n: nat)
      ensures 2 <= n <= 3 && (n == 2 <==> this == Color)
      ensures forall i :: 0 <= i < n ==> GetRange(i).Valid()
    {
      match this
      case Color => 2
      case Grayscale => 3
    }

    /** getRange(for:) */
    function GetRange(index: int): ClosedRange {
      match this
      case Color => if index == 0 then ClosedRange(0.1, 2.0) else ClosedRange(0.1, 4.0)
      case Grayscale =>
        if index == 0 then ClosedRange(0.0, 0.5)
        else if index == 1 then ClosedRange(0.0, 0.1)
        else ClosedRange(0.1, 0.5)
    }
  }

  datatype MultiSliderFilterControl = Bilateral | Vignette | Outline | TextStamp | Gamma | Red | Blue | Green {
    function RawValue(): string {
      match this
      case Bilateral => "bilateral"
      case Vignette => "vignette"
      case Outline => "outline"
      case TextStamp => "textStamp"
      case Gamma => "gamma"
      case Red => "red"
      case Blue => "blue"
      case Green => "green"
    }

    /** tunableFactors: the number of sliders. The outline filter has two
        sub-filters with their own counts and answers 0. */
    function TunableFactors(): (n: nat)
      ensures n == 0 <==> this == Outline
    {
      match this
      case Gamma => 7
      case Red | Blue | Green => 4
      case Bilateral => 2
      case Vignette => 3
      case Outline => 0
      case TextStamp => 3
    }

    /** getRange(for:) */
    function GetRange(index: int): ClosedRange {
      match this
      case Gamma =>
        if index == 0 then ClosedRange(0.1, 3.0)
        else if index == 1 then ClosedRange(0.5, 1.5)
        else if index == 2 then ClosedRange(0.0, 0.5)
        else if index == 3 then ClosedRange(-0.2, 0.2)
        else if index == 4 then ClosedRange(0.5, 1.5)
        else if index == 5 then ClosedRange(-0.5, 0.5)
        else ClosedRange(0.0, 1.0)
      case Red | Blue | Green => ClosedRange(-0.8, 0.8)
      case Bilateral => if index == 0 then ClosedRange(0.1, 3.0) else ClosedRange(0.1, 0.3)
      case Vignette =>
        if index == 0 then ClosedRange(0.0, 2.0)
        else if index == 1 then ClosedRange(0.0, 5.0)
        else ClosedRange(-0.5, 0.5)
      case Outline => ClosedRange(0.0, 1.0)
      case TextStamp =>
        if index == 0 then ClosedRange(10.0, 50.0)
        else if index == 1 then ClosedRange(0.0, 1.0)
        else ClosedRange(0.0, 2.0 * Pi)
    }
  }

  function MultiSliderFromRaw(raw: string): (r: Option<MultiSliderFilterControl>)
    ensures r.Some? ==> r.value.RawValue() == raw
    ensures r.None? ==> forall f: MultiSliderFilterControl :: f.RawValue() != raw
  {
    if raw == "bilateral" then Some(Bilateral)
    else if raw == "vignette" then Some(Vignette)
    else if raw == "outline" then Some(Outline)
    else if raw == "textStamp" then Some(TextStamp)
    else if raw == "gamma" then Some(Gamma)
    else if raw == "red" then Some(Red)
    else if raw == "blue" then Some(Blue)
    else if raw == "green" then Some(Green)
    else None
  }

  datatype OnOffFilter = PresetFilter {
    function RawValue(): string {
      match this
      case PresetFilter => "presetFiter"
    }
  }

  function OnOffFromRaw(raw: string): (r: Option<OnOffFilter>)
    ensures r.Some? ==> r.value.RawValue() == raw
    ensures r.None? ==> forall f: OnOffFilter :: f.RawValue() != raw
  {
    if raw == "presetFiter" then Some(PresetFilter) else None
  }

  datatype SingleSliderFilterControl = Brightness | Saturation | Contrast | Painter | BackgroundTone | Glitter {
    function RawValue(): string {
      match this
      case Brightness => "brightness"
      case Saturation => "saturation"
      case Contrast => "contrast"
      case Painter => "painter"
      case BackgroundTone => "backgroundTone"
      case Glitter => "glitter"
    }

    /** getRange() */
    function GetRange(): ClosedRange {
      match this
      case Brightness => ClosedRange(-0.5, 0.5)
      case Saturation | Contrast => ClosedRange(0.5, 1.5)
      case Painter => ClosedRange(0.0, 20.0)
      case BackgroundTone => ClosedRange(0.0, 0.7)
      case Glitter => ClosedRange(0.0, 0.2)
    }
  }

  function SingleSliderFromRaw(raw: string): (r: Option<SingleSliderFilterControl>)
    ensures r.Some? ==> r.value.RawValue() == raw
    ensures r.None? ==> forall f: SingleSliderFilterControl :: f.RawValue() != raw
  {
    if raw == "brightness" then Some(Brightness)
    else if raw == "saturation" then Some(Saturation)
    else if raw == "contrast" then Some(Contrast)
    else if raw == "painter" then Some(Painter)
    else if raw == "backgroundTone" then Some(BackgroundTone)
    else if raw == "glitter" then Some(Glitter)
    else None
  }

  /** The slider count of every multi-slider filter: seven for gamma, four
      for each colour channel, two for bilateral, three for vignette and the
      text stamp, and none for the outline. */
  lemma SliderCounts()
    ensures Gamma.TunableFactors() == 7
    ensures Red.TunableFactors() == 4 && Green.TunableFactors() == 4 && Blue.TunableFactors() == 4
    ensures Bilateral.TunableFactors() == 2
    ensures Vignette.TunableFactors() == 3 && TextStamp.TunableFactors() == 3
    ensures Outline.TunableFactors() == 0
  {
  }

  /** Every range table yields a valid ClosedRange (lower ≤ upper), so
      building one never traps. */
  lemma RangesAreValid(index: int)
    ensures forall f: MultiSliderFilterControl :: f.GetRange(index).Valid()
    ensures forall f: OutlineFilter :: f.GetRange(index).Valid()
    ensures forall f: SingleSliderFilterControl :: f.GetRange().Valid()
  {
  }

  /** The raw names of the five enumerations never collide, so the order in
      which FilterCategory(rawValue:) tries them decides nothing. */
  lemma RawNamesDisjoint()
    ensures forall a: DrawableFilterControl, b: MultiSliderFilterControl :: a.RawValue() != b.RawValue()
    ensures forall a: DrawableFilterControl, b: OnOffFilter :: a.RawValue() != b.RawValue()
    ensures forall a: DrawableFilterControl, b: SingleSliderFilterControl :: a.RawValue() != b.RawValue()
    ensures forall a: DrawableFilterControl, b: DistortionFilterControl :: a.RawValue() != b.RawValue()
    ensures forall a: MultiSliderFilterControl, b: OnOffFilter :: a.RawValue() != b.RawValue()
    ensures forall a: MultiSliderFilterControl, b: SingleSliderFilterControl :: a.RawValue() != b.RawValue()
    ensures forall a: MultiSliderFilterControl, b: DistortionFilterControl :: a.RawValue() != b.RawValue()
    ensures forall a: OnOffFilter, b: SingleSliderFilterControl :: a.RawValue() != b.RawValue()
    ensures forall a: OnOffFilter, b: DistortionFilterControl :: a.RawValue() != b.RawValue()
    ensures forall a: SingleSliderFilterControl, b: DistortionFilterControl :: a.RawValue() != b.RawValue()
  {
  }

  /** The control a category stands for (the generic parameter FT). */
  datatype Control =
    | Drawable(drawable: DrawableFilterControl)
    | MultiSlider(multiSlider: MultiSliderFilterControl)
    | OnOff(onOff: OnOffFilter)
    | SingleSlider(singleSlider: SingleSliderFilterControl)
    | Distortion(distortion: DistortionFilterControl)
  {
    function RawValue(): string {
      match this
      case Drawable(f) => f.RawValue()
      case MultiSlider(f) => f.RawValue()
      case OnOff(f) => f.RawValue()
      case SingleSlider(f) => f.RawValue()
      case Distortion(f) => f.RawValue()
    }
  }

  datatype FilterCategory = FilterCategory(control: Control, subCategory: string, hasSourceImage: bool) {
    /** id */
    function Id(): string { subCategory }
  }

  /** FilterCategory(rawValue:): the first enumeration, in the order
      drawable, multi-slider, on/off, single-slider, distortion, whose raw
      name matches. */
  function CategoryFromRaw(raw: string): (r: Option<FilterCategory>)
    ensures r.Some? ==> r.value.subCategory == raw && r.value.control.RawValue() == raw
    ensures r.Some? ==> (r.value.hasSourceImage <==> raw == "backgroundTone")
    ensures r.None? <==>
      DrawableFromRaw(raw).None? && MultiSliderFromRaw(raw).None? && OnOffFromRaw(raw).None? &&
      SingleSliderFromRaw(raw).None? && DistortionFromRaw(raw).None?
  {
    match DrawableFromRaw(raw)
    case Some(f) => Some(FilterCategory(Drawable(f), f.RawValue(), false))
    case None =>
    match MultiSliderFromRaw(raw)
    case Some(f) => Some(FilterCategory(MultiSlider(f), f.RawValue(), false))
    case None =>
    match OnOffFromRaw(raw)
    case Some(f) => Some(FilterCategory(OnOff(f), f.RawValue(), false))
    case None =>
    match SingleSliderFromRaw(raw)
    case Some(f) => Some(FilterCategory(SingleSlider(f), f.RawValue(), f == BackgroundTone))
    case None =>
    match DistortionFromRaw(raw)
    case Some(f) => Some(FilterCategory(Distortion(f), f.RawValue(), false))
    case None => None
  }

  /** Parsing a control's own raw name gives back that control. */
  lemma CategoryRoundTrip(c: Control)
    ensures CategoryFromRaw(c.RawValue()).Some?
    ensures CategoryFromRaw(c.RawValue()).value.control == c
  {
    RawNamesDisjoint();
    match c
    case Drawable(f) =>
    case MultiSlider(f) =>
    case OnOff(f) =>
    case SingleSlider(f) =>
    case Distortion(f) =>
  }

  /** `==`: categories are equal when their sub-categories are. */
  predicate SameCategory(lhs: FilterCategory, rhs: FilterCategory) {
    lhs.subCategory == rhs.subCategory
  }

  /** For categories built from raw names, equality by sub-category is
      equality of the whole value, and of the ids. */
  lemma SameCategoryIsEquality(a: string, b: string)
    requires CategoryFromRaw(a).Some? && CategoryFromRaw(b).Some?
    ensures SameCategory(CategoryFromRaw(a).value, CategoryFromRaw(b).value) <==>
      CategoryFromRaw(a).value == CategoryFromRaw(b).value
    ensures SameCategory(CategoryFromRaw(a).value, CategoryFromRaw(b).value) <==>
      CategoryFromRaw(a).value.Id() == CategoryFromRaw(b).value.Id()
  {
  }

  /** The controls allCategories lists, in its order. */
  function AllCategoryControls(): seq<Control> {
    [SingleSlider(Brightness), SingleSlider(Saturation), SingleSlider(Contrast), SingleSlider(Painter),
     SingleSlider(BackgroundTone), SingleSlider(Glitter),
     Distortion(Crop), Distortion(Rotate), Distortion(Perspective),
     MultiSlider(Bilateral), MultiSlider(Vignette), MultiSlider(Outline), MultiSlider(TextStamp),
     Drawable(MaskBlur), Drawable(Drawing),
     OnOff(PresetFilter)]
  }

  /** The controls categiresForRecording lists, in its order. */
  function RecordingCategoryControls(): seq<Control> {
    [SingleSlider(Brightness), SingleSlider(Saturation), SingleSlider(Contrast),
     MultiSlider(Vignette), MultiSlider(Outline),
     OnOff(PresetFilter)]
  }

  /** allCategories and categiresForRecording force-unwrap
      FilterCategory(rawValue:) on each raw name: every one parses back to
      its control, and the names of allCategories are pairwise different. */
  lemma CategoryListsParse()
    ensures forall c :: c in AllCategoryControls() ==>
      CategoryFromRaw(c.RawValue()).Some? && CategoryFromRaw(c.RawValue()).value.control == c
    ensures forall c :: c in RecordingCategoryControls() ==> c in AllCategoryControls()
    ensures forall i, j :: 0 <= i < j < |AllCategoryControls()| ==>
      AllCategoryControls()[i].RawValue() != AllCategoryControls()[j].RawValue()
  {
    var all := AllCategoryControls();
    forall c | c in all
      ensures CategoryFromRaw(c.RawValue()).Some? && CategoryFromRaw(c.RawValue()).value.control == c
    {
      CategoryRoundTrip(c);
    }
    forall i, j | 0 <= i < j < |all| ensures all[i].RawValue() != all[j].RawValue() {
      CategoryRoundTrip(all[i]);
      CategoryRoundTrip(all[j]);
    }
  }
}
