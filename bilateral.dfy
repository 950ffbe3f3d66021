/**
 * The Bilateral filter's parameter rules: the face region handed to the
 * kernel is the largest detected face, and the kernel's minimum distance
 * shrinks with the order of magnitude of the image size.
 */
module BilateralFilter {
  import opened CoreTypes

  /** Bilateral.faceRegionsKey */
  const FaceRegionsKey := "faceRegionsKey"

  /** 10^k */
  function Pow10(k: nat): (r: nat)
    ensures r >= 1
  {
    if k == 0 then 1 else 10 * Pow10(k - 1)
  }

  /** ⌊log10 n⌋ of a positive integer: its number of decimal digits minus one. */
  function NatLog10(n: nat): (k: nat)
    requires n >= 1
    ensures Pow10(k) <= n < Pow10(k + 1)
  {
    if n < 10 then 0 else 1 + NatLog10(n / 10)
  }

  /** `Int(log10(x))` for a positive x: the logarithm truncated toward zero.
      At or above 1 it is ⌊log10 x⌋; below 1 it is minus ⌊log10 (1/x)⌋. */
  function TruncLog10(x: real): (k: int)
    requires x > 0.0
    ensures x >= 1.0 ==> k >= 0 && Pow10(k) as real <= x < Pow10(k + 1) as real
    ensures x < 1.0 ==> k <= 0 && Pow10(-k) as real <= 1.0 / x < Pow10(-k + 1) as real
  {
    if x >= 1.0 then NatLog10(x.Floor)
    else
      assert 1.0 / x > 1.0;
      assert (1.0 / x).Floor >= 1;
      -(NatLog10((1.0 / x).Floor) as int)
  }

  /** `pow(0.1, CGFloat(k))` for an integer exponent. */
  function TenthPower(k: int): (r: real)
    ensures r > 0.0
    ensures k >= 0 ==> r <= 1.0 && r * Pow10(k) as real == 1.0
    ensures k < 0 ==> r == Pow10(-k) as real
  {
    if k >= 0 then 1.0 / Pow10(k) as real else Pow10(-k) as real
  }

  /** `max(Int(log10(width)), Int(log10(height)))` */
  function Scale(width: real, height: real): (k: int)
    requires width > 0.0 && height > 0.0
    ensures k == TruncLog10(width) || k == TruncLog10(height)
    ensures k >= TruncLog10(width) && k >= TruncLog10(height)
  {
    var kw := TruncLog10(width);
    var kh := TruncLog10(height);
    if kw >= kh then kw else kh
  }

  /** The minimum distance setValue derives from an extent of the given
      (positive) width and height: `pow(0.1, scale)`. */
  function MinimumDistance(width: real, height: real): (d: real)
    requires width > 0.0 && height > 0.0
    ensures d > 0.0
    ensures width >= 1.0 || height >= 1.0 ==> d <= 1.0
  {
    TenthPower(Scale(width, height))
  }

  /** For an image at least one unit wide and high, the minimum distance is
      10^-k where 10^k is the order of magnitude of its larger side. */
  lemma MinimumDistanceMagnitude(width: real, height: real)
    requires width >= 1.0 && height >= 1.0
    ensures var k := Scale(width, height);
      k >= 0 && MinimumDistance(width, height) == 1.0 / Pow10(k) as real
      && Pow10(k) as real <= Max(width, height) < Pow10(k + 1) as real
  {
    var kw := TruncLog10(width);
    var kh := TruncLog10(height);
    var k := Scale(width, height);
    assert kw >= 0 && kh >= 0;
    if kw >= kh {
      assert k == kw;
      PowMono(kh + 1, kw + 1);
      assert height < Pow10(kh + 1) as real <= Pow10(k + 1) as real;
    } else {
      assert k == kh;
      PowMono(kw + 1, kh + 1);
      assert width < Pow10(kw + 1) as real <= Pow10(k + 1) as real;
    }
  }

  lemma {:induction false} PowMono(i: nat, j: nat)
    requires i <= j
    ensures Pow10(i) <= Pow10(j)
    decreases j
  {
    if i < j {
      PowMono(i, j - 1);
    }
  }

  /** A 1000 × 800 image gets minimum distance 0.001. */
  lemma ThousandByEightHundred()
    ensures MinimumDistance(1000.0, 800.0) == 0.001
  {
    assert Pow10(3) == 1000;
    assert Pow10(2) == 100;
    assert 1000.0.Floor == 1000 && 800.0.Floor == 800;
    assert NatLog10(1000) == 3;
    assert NatLog10(800) == 2;
  }

  /** The area the face sort compares: standardised width times height. */
  function Area(r: Rect): real {
    r.Width() * r.Height()
  }

  /** The first region of greatest area, the one `sorted(by: >).first`
      returns. */
  function LargestRegion(regions: seq<Rect>): (r: Rect)
    requires |regions| > 0
    ensures r in regions
    ensures forall s :: s in regions ==> Area(s) <= Area(r)
  {
    if |regions| == 1 then regions[0]
    else
      var rest := LargestRegion(regions[1..]);
      assert forall s :: s in regions ==> s == regions[0] || s in regions[1..];
      if Area(regions[0]) >= Area(rest) then regions[0] else rest
  }

  /** The kernel's face vector (minX, maxX, minY, maxY). */
  function Corners(r: Rect): seq<real> {
    [r.MinX(), r.MaxX(), r.MinY(), r.MaxY()]
  }

  /** The face vector for a list of detected regions: the corners of a
      largest one, or all zeros when there is none. */
  function FaceVector(regions: seq<Rect>): (v: seq<real>)
    ensures |v| == 4
    ensures regions == [] ==> v == [0.0, 0.0, 0.0, 0.0]
    ensures regions != [] ==>
      exists s :: s in regions && v == Corners(s) && forall t :: t in regions ==> Area(t) <= Area(s)
  {
    if regions == [] then [0.0, 0.0, 0.0, 0.0] else Corners(LargestRegion(regions))
  }

  class Bilateral {
    var inputImage: Option<Image>
    var faceRegion: seq<real>
    var spacialSigma: real
    var luminaceSigma: real
    var minimumDistance: real

    /** The face vector has four components and the distance is positive. */
    predicate Valid()
      reads this
    {
      |faceRegion| == 4 && minimumDistance > 0.0
    }

    constructor ()
      ensures Valid()
      ensures inputImage == None && faceRegion == [0.0, 0.0, 0.0, 0.0]
      ensures spacialSigma == 0.1 && luminaceSigma == 0.1 && minimumDistance == 1.0
    {
      inputImage := None;
      faceRegion := [0.0, 0.0, 0.0, 0.0];
      spacialSigma, luminaceSigma, minimumDistance := 0.1, 0.1, 1.0;
    }

    /** setValue(_:forKey:). The input image key accepts anything (a
        non-image clears the image); the other keys ignore values of the
        wrong type. An extent must have a positive size, since the logarithm
        of anything else cannot be converted to an integer. */
    method SetValue(value: Option<Value>, key: string)
      requires Valid()
      requires key == InputExtentKey && value.Some? && value.value.RectValue? ==>
        value.value.rect.w > 0.0 && value.value.rect.h > 0.0
      modifies this
      ensures Valid()
      ensures key == InputImageKey ==>
        inputImage == (if value.Some? && value.value.ImageValue? then Some(value.value.image) else None)
      ensures key != InputImageKey ==> inputImage == old(inputImage)
      ensures spacialSigma ==
        if key == InputRadiusKey && value.Some? && value.value.RealValue? then value.value.r else old(spacialSigma)
      ensures luminaceSigma ==
        if key == InputIntensityKey && value.Some? && value.value.RealValue? then value.value.r else old(luminaceSigma)
      ensures minimumDistance ==
        if key == InputExtentKey && value.Some? && value.value.RectValue?
        then MinimumDistance(value.value.rect.w, value.value.rect.h) else old(minimumDistance)
      ensures faceRegion ==
        if key == FaceRegionsKey && value.Some? && value.value.RectsValue?
        then FaceVector(value.value.rects) else old(faceRegion)
    {
      if key == InputImageKey {
        inputImage := if value.Some? && value.value.ImageValue? then Some(value.value.image) else None;
      } else if key == InputRadiusKey && value.Some? && value.value.RealValue? {
        spacialSigma := value.value.r;
      } else if key == InputIntensityKey && value.Some? && value.value.RealValue? {
        luminaceSigma := value.value.r;
      } else if key == InputExtentKey && value.Some? && value.value.RectValue? {
        var extent := value.value.rect;
        minimumDistance := MinimumDistance(extent.w, extent.h);
      } else if key == FaceRegionsKey && value.Some? && value.value.RectsValue? {
        faceRegion := FaceVector(value.value.rects);
      }
    }

    /** value(forKey:): the two sigmas; nil for every other key. */
    function ValueFor(key: string): (v: Option<Value>)
      reads this
      ensures key == InputRadiusKey ==> v == Some(RealValue(spacialSigma))
      ensures key == InputIntensityKey ==> v == Some(RealValue(luminaceSigma))
      ensures key != InputRadiusKey && key != InputIntensityKey ==> v == None
    {
      if key == InputRadiusKey then Some(RealValue(spacialSigma))
      else if key == InputIntensityKey then Some(RealValue(luminaceSigma))
      else None
    }

    /** outputImage: the bilateral kernel over the input's extent with the
        face vector, both sigmas and the minimum distance; nil without input. */
    function OutputImage(): (out: Option<Image>)
      reads this
      requires Valid()
      ensures inputImage.None? <==> out.None?
      ensures out.Some? ==> out.value.Extent() == inputImage.value.Extent()
      ensures out.Some? ==>
        out.value.Applied? && out.value.kernel == "bilateral"
        && out.value.inputs == [inputImage.value] && |out.value.args| == 7
        && out.value.args[..4] == faceRegion
        && out.value.args[4..] == [spacialSigma, luminaceSigma, minimumDistance]
    {
      match inputImage
      case None => None
      case Some(input) =>
        Some(Applied("bilateral", [input], faceRegion + [spacialSigma, luminaceSigma, minimumDistance], input.Extent()))
    }
  }

  /** A sigma stored under its key is what value(forKey:) reads back, and
      the other sigma is untouched. */
  method SigmaRoundTrip(f: Bilateral, key: string, sigma: real) returns (read: Option<Value>)
    requires f.Valid()
    requires key == InputRadiusKey || key == InputIntensityKey
    modifies f
    ensures f.Valid()
    ensures read == Some(RealValue(sigma))
    ensures key == InputRadiusKey ==> f.luminaceSigma == old(f.luminaceSigma)
    ensures key == InputIntensityKey ==> f.spacialSigma == old(f.spacialSigma)
  {
    f.SetValue(Some(RealValue(sigma)), key);
    read := f.ValueFor(key);
  }
}
