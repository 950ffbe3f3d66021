/**
 * ImageAnalyst: statistics the editor gathers from the photo — its average
 * luminance, the detected face regions and a normalised depth map — and the
 * depth mask it derives for a focus depth.
 */
module ImageAnalysis {
  import opened CoreTypes

  /** A byte of an RGBA pixel buffer. */
  predicate IsByte(v: int) { 0 <= v < 256 }

  /** The luminance of one pixel, in [0, 1] (Rec. 601 weights). */
  function PixelLuminance(r: int, g: int, b: int): (l: real)
    requires IsByte(r) && IsByte(g) && IsByte(b)
    ensures 0.0 <= l <= 1.0
  {
    (0.299 * r as real + 0.587 * g as real + 0.114 * b as real) / 255.0
  }

  /** The sum of the luminances of the first n RGBA pixels. */
  function LuminanceSum(bytes: seq<int>, n: nat): (s: real)
    requires 4 * n <= |bytes|
    requires forall i :: 0 <= i < |bytes| ==> IsByte(bytes[i])
  {
    if n == 0 then 0.0
    else LuminanceSum(bytes, n - 1) + PixelLuminance(bytes[4 * (n - 1)], bytes[4 * (n - 1) + 1], bytes[4 * (n - 1) + 2])
  }

  /** Each pixel adds between 0 and 1 to the sum. */
  lemma {:induction false} LuminanceSumBounds(bytes: seq<int>, n: nat)
    requires 4 * n <= |bytes|
    requires forall i :: 0 <= i < |bytes| ==> IsByte(bytes[i])
    ensures 0.0 <= LuminanceSum(bytes, n) <= n as real
  {
    if n > 0 {
      LuminanceSumBounds(bytes, n - 1);
    }
  }

  /** A grey buffer, whose red, green and blue bytes are all v, sums to
      n · v / 255: the three weights add up to one. */
  lemma {:induction false} GreySum(bytes: seq<int>, n: nat, v: int)
    requires 4 * n <= |bytes| && IsByte(v)
    requires forall i :: 0 <= i < |bytes| ==> IsByte(bytes[i])
    requires forall k :: 0 <= k < n ==> bytes[4 * k] == v && bytes[4 * k + 1] == v && bytes[4 * k + 2] == v
    ensures LuminanceSum(bytes, n) == n as real * (v as real / 255.0)
  {
    if n > 0 {
      GreySum(bytes, n - 1, v);
      assert PixelLuminance(v, v, v) == v as real / 255.0;
    }
  }

  /** The average of n values whose sum lies in [0, n] lies in [0, 1]. */
  lemma AverageBounds(sum: real, n: nat)
    requires n > 0 && 0.0 <= sum <= n as real
    ensures 0.0 <= sum / n as real <= 1.0
  {
    assert sum / n as real * n as real == sum;
  }

  /** The average luminance is in [0, 1] for any non-empty RGBA buffer,
      and is v / 255 for a grey one. */
  lemma AverageLuminanceProperties(bytes: seq<int>, v: int)
    requires |bytes| >= 4 && |bytes| % 4 == 0
    requires forall i :: 0 <= i < |bytes| ==> IsByte(bytes[i])
    ensures var n := |bytes| / 4;
      0.0 <= LuminanceSum(bytes, n) / n as real <= 1.0
    ensures IsByte(v) && (forall k :: 0 <= k < |bytes| / 4 ==> bytes[4 * k] == v && bytes[4 * k + 1] == v && bytes[4 * k + 2] == v)
      ==> LuminanceSum(bytes, |bytes| / 4) / (|bytes| / 4) as real == v as real / 255.0
  {
    var n := |bytes| / 4;
    LuminanceSumBounds(bytes, n);
    AverageBounds(LuminanceSum(bytes, n), n);
    if IsByte(v) && (forall k :: 0 <= k < n ==> bytes[4 * k] == v && bytes[4 * k + 1] == v && bytes[4 * k + 2] == v) {
      GreySum(bytes, n, v);
    }
  }

  /** The running minimum of the depth scan, starting from 1. */
  function ScanMin(s: seq<real>): (m: real)
    ensures m <= 1.0 && forall i :: 0 <= i < |s| ==> m <= s[i]
    ensures m == 1.0 || exists i :: 0 <= i < |s| && m == s[i]
  {
    if |s| == 0 then 1.0 else Min(s[|s| - 1], ScanMin(s[..|s| - 1]))
  }

  /** The running maximum of the depth scan, starting from 0. */
  function ScanMax(s: seq<real>): (m: real)
    ensures m >= 0.0 && forall i :: 0 <= i < |s| ==> s[i] <= m
    ensures m == 0.0 || exists i :: 0 <= i < |s| && m == s[i]
  {
    if |s| == 0 then 0.0 else Max(s[|s| - 1], ScanMax(s[..|s| - 1]))
  }

  /** A depth map whose pixels all hold one value in [0, 1] scans to an
      empty range: normalising it would divide by zero. */
  lemma ConstantMapHasEmptyRange(s: seq<real>, v: real)
    requires |s| > 0 && 0.0 <= v <= 1.0
    requires forall i :: 0 <= i < |s| ==> s[i] == v
    ensures ScanMax(s) - ScanMin(s) == 0.0
  {
  }

  /** A pixel between the scan's bounds normalises into [0, 1]. */
  lemma NormalizedBounds(p: real, lo: real, hi: real)
    requires lo <= p <= hi && hi - lo > 0.0
    ensures 0.0 <= Rescale(p, lo, hi) <= 1.0
  {
    assert (p - lo) / (hi - lo) * (hi - lo) == p - lo;
  }

  /** Where row y of a row-major buffer starts, written as a running sum
      so that the loop proofs need no multiplication. */
  function RowStart(y: nat, width: nat): nat {
    if y == 0 then 0 else RowStart(y - 1, width) + width
  }

  /** RowStart is the pixel index y · width. */
  lemma {:induction false} RowStartIsProduct(y: nat, width: nat)
    ensures RowStart(y, width) == y * width
  {
    if y > 0 {
      RowStartIsProduct(y - 1, width);
      assert (y - 1) * width + width == y * width;
    }
  }

  /** Later rows start later. */
  lemma {:induction false} RowStartMono(y: nat, height: nat, width: nat)
    requires y <= height
    ensures RowStart(y, width) <= RowStart(height, width)
    decreases height
  {
    if y < height {
      RowStartMono(y, height - 1, width);
    }
  }

  /** One row of the scan: the pixels start .. start + width - 1 fold into
      the running minimum and maximum. */
  method ScanRow(buffer: array<real>, start: nat, width: nat, lo: real, hi: real)
    returns (minPixel: real, maxPixel: real)
    requires start + width <= buffer.Length
    requires lo == ScanMin(buffer[..start]) && hi == ScanMax(buffer[..start])
    ensures minPixel == ScanMin(buffer[..start + width]) && maxPixel == ScanMax(buffer[..start + width])
  {
    minPixel, maxPixel := lo, hi;
    for x := 0 to width
      invariant minPixel == ScanMin(buffer[..start + x])
      invariant maxPixel == ScanMax(buffer[..start + x])
    {
      var k := start + x;
      var pixel := buffer[k];
      assert buffer[..k + 1][..k] == buffer[..k];
      minPixel := Min(pixel, minPixel);
      maxPixel := Max(pixel, maxPixel);
    }
  }

  /** The first loop nest of normalizeDepthData: the minimum and maximum of
      the width × height pixels, scanned row by row. */
  method ScanDepth(buffer: array<real>, width: nat, height: nat) returns (minPixel: real, maxPixel: real)
    requires width * height <= buffer.Length
    ensures minPixel == ScanMin(buffer[..width * height])
    ensures maxPixel == ScanMax(buffer[..width * height])
  {
    RowStartIsProduct(height, width);
    minPixel, maxPixel := 1.0, 0.0;
    for y := 0 to height
      invariant RowStart(y, width) <= RowStart(height, width)
      invariant minPixel == ScanMin(buffer[..RowStart(y, width)])
      invariant maxPixel == ScanMax(buffer[..RowStart(y, width)])
    {
      RowStartMono(y + 1, height, width);
      RowStartIsProduct(y, width);
      minPixel, maxPixel := ScanRow(buffer, y * width, width, minPixel, maxPixel);
    }
  }

  /** A depth value rescaled so that lo maps to 0 and hi to 1. */
  function Rescale(p: real, lo: real, hi: real): real
    requires hi - lo != 0.0
  {
    (p - lo) / (hi - lo)
  }

  /** The first count pixels rescaled; the rest of the buffer unchanged. */
  ghost predicate Normalized(after: seq<real>, before: seq<real>, count: nat, lo: real, hi: real)
    requires hi - lo != 0.0
  {
    |after| == |before| && count <= |before|
    && (forall k :: 0 <= k < count ==> after[k] == Rescale(before[k], lo, hi))
    && (forall k :: count <= k < |before| ==> after[k] == before[k])
  }

  /** One row of the rewrite. */
  method NormalizeRow(buffer: array<real>, start: nat, width: nat, minPixel: real, maxPixel: real,
                      ghost before: seq<real>)
    requires start + width <= buffer.Length && maxPixel - minPixel != 0.0
    requires Normalized(buffer[..], before, start, minPixel, maxPixel)
    modifies buffer
    ensures Normalized(buffer[..], before, start + width, minPixel, maxPixel)
  {
    var range := maxPixel - minPixel;
    for x := 0 to width
      invariant Normalized(buffer[..], before, start + x, minPixel, maxPixel)
    {
      var k := start + x;
      var pixel := buffer[k];
      buffer[k] := (pixel - minPixel) / range;
      assert buffer[k] == Rescale(before[k], minPixel, maxPixel);
    }
  }

  /** normalizeDepthData: rescales the depth map so that its scanned
      minimum becomes 0 and its maximum 1. The range must not be empty; a
      map of one value in [0, 1] is excluded (see ConstantMapHasEmptyRange). */
  method NormalizeDepthData(buffer: array<real>, width: nat, height: nat)
    requires width * height <= buffer.Length
    requires ScanMax(buffer[..width * height]) - ScanMin(buffer[..width * height]) != 0.0
    modifies buffer
    ensures var lo := ScanMin(old(buffer[..width * height]));
      var hi := ScanMax(old(buffer[..width * height]));
      hi - lo != 0.0 && Normalized(buffer[..], old(buffer[..]), width * height, lo, hi)
    ensures forall k :: 0 <= k < width * height ==> 0.0 <= buffer[k] <= 1.0
  {
    ghost var before := buffer[..];
    var minPixel, maxPixel := ScanDepth(buffer, width, height);
    assert before[..width * height] == buffer[..width * height];
    NormalizeRows(buffer, width, height, minPixel, maxPixel);
    NormalizedInUnit(buffer[..], before, width * height, minPixel, maxPixel);
  }

  /** The second loop nest of normalizeDepthData: every row rewritten. */
  method NormalizeRows(buffer: array<real>, width: nat, height: nat, minPixel: real, maxPixel: real)
    requires width * height <= buffer.Length && maxPixel - minPixel != 0.0
    modifies buffer
    ensures Normalized(buffer[..], old(buffer[..]), width * height, minPixel, maxPixel)
  {
    ghost var before := buffer[..];
    RowStartIsProduct(height, width);
    for y := 0 to height
      invariant RowStart(y, width) <= RowStart(height, width)
      invariant Normalized(buffer[..], before, RowStart(y, width), minPixel, maxPixel)
    {
      RowStartMono(y + 1, height, width);
      RowStartIsProduct(y, width);
      NormalizeRow(buffer, y * width, width, minPixel, maxPixel, before);
    }
  }

  /** Every rewritten pixel lies in [0, 1], because the scan's bounds
      enclose every pixel it saw. */
  lemma NormalizedInUnit(after: seq<real>, before: seq<real>, count: nat, lo: real, hi: real)
    requires count <= |before| && hi - lo != 0.0
    requires lo == ScanMin(before[..count]) && hi == ScanMax(before[..count])
    requires Normalized(after, before, count, lo, hi)
    ensures forall k :: 0 <= k < count ==> 0.0 <= after[k] <= 1.0
  {
    forall k | 0 <= k < count
      ensures 0.0 <= after[k] <= 1.0
    {
      assert before[..count][k] == before[k];
      NormalizedBounds(before[k], lo, hi);
    }
  }

  /** ImageAnalyst.depthConfig */
  const DepthSlope := 1.0
  const DepthWidth := 0.5

  /** The colour-matrix bias createDepthMask uses for a focus depth: with
      the configured slope and width, the focus depth plus 1.25. */
  function DepthBias(focus: real): (bias: real)
    ensures bias == focus + 1.25
  {
    var filterWidth := 2.0 / DepthSlope + DepthWidth;
    DepthSlope * (focus + filterWidth / 2.0)
  }

  /** The CIColorMatrix arguments createDepthMask passes, in the order of
      the R, G and B vectors and then the bias vector. */
  function DepthMatrix(focus: real): (m: seq<real>)
    ensures |m| == 16
  {
    var bias := DepthBias(focus);
    [-DepthSlope, 0.0, 0.0, 0.0, 0.0, -DepthSlope, 0.0, 0.0, 0.0, 0.0, -DepthSlope, 0.0, bias, bias, bias, 0.0]
  }

  /** CIColorMatrix on colour channel c (0, 1, 2 for red, green, blue) of a
      grey pixel of value d and alpha a: the channel's vector dotted with
      (d, d, d, a), plus the channel's bias. */
  function MatrixChannel(args: seq<real>, c: nat, d: real, a: real): real
    requires |args| == 16 && c < 3
  {
    args[4 * c] * d + args[4 * c + 1] * d + args[4 * c + 2] * d + args[4 * c + 3] * a + args[12 + c]
  }

  /** The mask value of a pixel of the given depth after the colour matrix
      and the clamp to [0, 1]. */
  function MaskValue(depth: real, focus: real): (m: real)
    ensures 0.0 <= m <= 1.0
  {
    Max(0.0, Min(1.0, DepthBias(focus) - DepthSlope * depth))
  }

  /** The mask is fully opaque up to a quarter beyond the focus depth,
      fully transparent from one and a quarter beyond it, and falls off
      linearly in between. */
  lemma MaskProfile(depth: real, focus: real)
    ensures depth <= focus + 0.25 ==> MaskValue(depth, focus) == 1.0
    ensures depth >= focus + 1.25 ==> MaskValue(depth, focus) == 0.0
    ensures focus + 0.25 <= depth <= focus + 1.25 ==> MaskValue(depth, focus) == focus + 1.25 - depth
  {
  }

  /** The depth matrix followed by CIColorClamp turns every colour channel
      of a grey depth pixel into MaskValue, whatever the pixel's alpha: the
      profile MaskProfile describes is the mask createDepthMask builds. */
  lemma {:induction false} DepthMatrixGivesMask(focus: real, c: nat, d: real, a: real)
    requires c < 3
    ensures Max(0.0, Min(1.0, MatrixChannel(DepthMatrix(focus), c, d, a))) == MaskValue(d, focus)
  {
    var m := DepthMatrix(focus);
    assert MatrixChannel(m, c, d, a) == DepthBias(focus) - DepthSlope * d by {
      assert m[4 * c] * d + m[4 * c + 1] * d + m[4 * c + 2] * d + m[4 * c + 3] * a == -DepthSlope * d by {
        if c == 0 {} else if c == 1 {} else {}
      }
      assert m[12 + c] == DepthBias(focus);
    }
  }

  /** Vision's bounding box, flipped from a bottom-left to a top-left origin
      in the unit square. */
  function FlipBoundingBox(box: Rect): (r: Rect)
    ensures r.Width() == box.Width() && r.Height() == box.Height()
    ensures box.w >= 0.0 ==> r.MinX() == box.MinX() && r.MaxX() == box.MaxX()
    ensures r.MinY() == 1.0 - box.MaxY() && r.MaxY() == 1.0 - box.MinY()
  {
    Rect(box.x, 1.0 - box.MaxY(), box.Width(), box.Height())
  }

  /** Flipping a box with non-negative size twice gives it back. */
  lemma FlipTwice(box: Rect)
    requires box.w >= 0.0 && box.h >= 0.0
    ensures FlipBoundingBox(FlipBoundingBox(box)) == box
  {
  }

  class ImageAnalyst {
    var averageLuminace: real
    var faceRegions: seq<Rect>
    var depthImage: Option<Image>
    /** The image source handle, created from the photo's data. */
    var imageSource: Option<nat>
    var imageSize: Option<Size>

    constructor ()
      ensures averageLuminace == 0.5 && faceRegions == [] && depthImage == None
      ensures imageSource == None && imageSize == None
    {
      averageLuminace := 0.5;
      faceRegions := [];
      depthImage := None;
      imageSource := None;
      imageSize := None;
    }

    /** reset */
    method Reset()
      modifies this
      ensures averageLuminace == 0.5 && faceRegions == [] && depthImage == None
      ensures imageSource == None && imageSize == None
    {
      averageLuminace := 0.5;
      faceRegions := [];
      imageSource := None;
      imageSize := None;
      depthImage := None;
    }

    /** calcAverageLuminace: the mean pixel luminance of the image's RGBA
        bytes; nothing changes when the image has no data. */
    method CalcAverageLuminance(data: Option<seq<int>>)
      requires data.Some? ==> |data.value| >= 4 && |data.value| % 4 == 0
      requires data.Some? ==> forall i :: 0 <= i < |data.value| ==> IsByte(data.value[i])
      modifies this
      ensures data.None? ==> averageLuminace == old(averageLuminace)
      ensures data.Some? ==>
        averageLuminace == LuminanceSum(data.value, |data.value| / 4) / (|data.value| / 4) as real
        && 0.0 <= averageLuminace <= 1.0
      ensures faceRegions == old(faceRegions) && depthImage == old(depthImage)
      ensures imageSource == old(imageSource) && imageSize == old(imageSize)
    {
      if data.None? {
        return;
      }
      var bytes := data.value;
      var length := |bytes|;
      var luminance := 0.0;
      var i := 0;
      while i < length
        invariant 0 <= i <= length && i % 4 == 0
        invariant luminance == LuminanceSum(bytes, i / 4)
      {
        var r, g, b := bytes[i], bytes[i + 1], bytes[i + 2];
        luminance := luminance + (0.299 * r as real + 0.587 * g as real + 0.114 * b as real) / 255.0;
        i := i + 4;
      }
      AverageLuminanceProperties(bytes, 0);
      averageLuminace := luminance / (length / 4) as real;
    }

    /** The completion of calcFaceRegions: Vision's face boxes, flipped.
        `results` is None when the request's results are not face
        observations; the regions are then kept as they were. */
    method ReceiveFaceObservations(results: Option<seq<Rect>>)
      modifies this
      ensures results.None? ==> faceRegions == old(faceRegions)
      ensures results.Some? ==> |faceRegions| == |results.value|
      ensures results.Some? ==> forall i :: 0 <= i < |results.value| ==> faceRegions[i] == FlipBoundingBox(results.value[i])
      ensures averageLuminace == old(averageLuminace) && depthImage == old(depthImage)
      ensures imageSource == old(imageSource) && imageSize == old(imageSize)
    {
      if results.Some? {
        var boxes := results.value;
        faceRegions := seq(|boxes|, i requires 0 <= i < |boxes| => FlipBoundingBox(boxes[i]));
      }
    }

    /** createDepthMask(over:): nil until both the depth image and the image
        size are known; otherwise the depth image through the colour matrix
        (−slope per channel, DepthBias as bias) and a clamp, which is
        MaskValue per pixel (DepthMatrixGivesMask), scaled to the image's
        larger side and clamped again. */
    function CreateDepthMask(focus: real): (mask: Option<Image>)
      reads this
      requires depthImage.Some? && imageSize.Some? ==>
        Max(depthImage.value.Extent().w, depthImage.value.Extent().h) != 0.0
      ensures mask.None? <==> depthImage.None? || imageSize.None?
      ensures mask.Some? ==>
        mask.value.Applied? && mask.value.kernel == "CIColorClamp"
        && |mask.value.inputs| == 1 && mask.value.inputs[0].Applied?
        && mask.value.inputs[0].kernel == "CILanczosScaleTransform"
        && mask.value.inputs[0].inputs ==
           [Applied("CIColorClamp", [Applied("CIColorMatrix", [depthImage.value], DepthMatrix(focus), depthImage.value.Extent())],
                    [], depthImage.value.Extent())]
        && |mask.value.inputs[0].args| == 1
        && mask.value.inputs[0].args[0] * Max(depthImage.value.Extent().w, depthImage.value.Extent().h)
           == Max(imageSize.value.width, imageSize.value.height)
    {
      if depthImage.None? || imageSize.None? then None
      else
        var depth := depthImage.value;
        var matrix := Applied("CIColorMatrix", [depth], DepthMatrix(focus), depth.Extent());
        var clamped := Applied("CIColorClamp", [matrix], [], depth.Extent());
        var originalSize := Max(imageSize.value.width, imageSize.value.height);
        var depthImageSize := Max(depth.Extent().w, depth.Extent().h);
        var scale := originalSize / depthImageSize;
        var e := depth.Extent();
        var scaled := Applied("CILanczosScaleTransform", [clamped], [scale],
          Rect(e.x * scale, e.y * scale, e.w * scale, e.h * scale));
        Some(Applied("CIColorClamp", [scaled], [], scaled.extent))
    }
  }
}
