/**
 * The Sobel outline filters: a horizontal and a vertical Sobel convolution
 * (3 × 3 or 5 × 5), weighted and biased by the filter's parameters, cropped
 * to the source and made opaque. The two kernel sizes are the two
 * subclasses of SobelOutline; here they are one class with a constant size.
 */
module SobelFilter {
  import opened CoreTypes
  import opened CIVectorOps

  /** The kernel size a subclass fixes. */
  datatype KernelSize = Three | Five {
    /** kernelSize() */
    function Value(): (n: int)
      ensures n == 3 || n == 5
    {
      if Three? then 3 else 5
    }

    /** The CoreImage convolution filter of that size. */
    function FilterName(): string {
      if Three? then "CIConvolution3X3" else "CIConvolution5X5"
    }
  }

  // The kernels row by row; a CIVector holds them flattened, row after row.
  const Horizontal3: seq<seq<real>> := [
    [-1.0, 0.0, 1.0],
    [-2.0, 0.0, 2.0],
    [-1.0, 0.0, 1.0]]

  const Vertical3: seq<seq<real>> := [
    [-1.0, -2.0, -1.0],
    [ 0.0,  0.0,  0.0],
    [ 1.0,  2.0,  1.0]]

  const Horizontal5: seq<seq<real>> := [
    [-1.0,  -2.0, 0.0,  2.0, 1.0],
    [-4.0,  -8.0, 0.0,  8.0, 4.0],
    [-6.0, -12.0, 0.0, 12.0, 6.0],
    [-4.0,  -8.0, 0.0,  8.0, 4.0],
    [-1.0,  -2.0, 0.0,  2.0, 1.0]]

  const Vertical5: seq<seq<real>> := [
    [-1.0, -4.0,  -6.0, -4.0, -1.0],
    [-2.0, -8.0, -12.0, -8.0, -2.0],
    [ 0.0,  0.0,   0.0,  0.0,  0.0],
    [ 2.0,  8.0,  12.0,  8.0,  2.0],
    [ 1.0,  4.0,   6.0,  4.0,  1.0]]

  /** A matrix of n rows of n entries. */
  predicate Square(m: seq<seq<real>>) {
    forall r :: 0 <= r < |m| ==> |m[r]| == |m|
  }

  /** The transpose of a square matrix. */
  function Transpose(m: seq<seq<real>>): (t: seq<seq<real>>)
    requires Square(m)
    ensures |t| == |m| && Square(t)
    ensures forall r, c :: 0 <= r < |m| && 0 <= c < |m| ==> t[r][c] == m[c][r]
  {
    seq(|m|, r requires 0 <= r < |m| => seq(|m|, c requires 0 <= c < |m| => m[c][r]))
  }

  /** The rows one after the other, as a CIVector holds them. */
  function Flatten(m: seq<seq<real>>): (v: seq<real>)
  {
    if |m| == 0 then [] else m[0] + Flatten(m[1..])
  }

  /** The sum of a vector's components. */
  function Sum(v: seq<real>): real {
    if |v| == 0 then 0.0 else v[0] + Sum(v[1..])
  }

  /** The sum of the row sums of a matrix. */
  function SumOfRows(m: seq<seq<real>>): real {
    if |m| == 0 then 0.0 else Sum(m[0]) + SumOfRows(m[1..])
  }

  /** The horizontal kernel of each size, flattened. */
  function HorizontalWeights(size: KernelSize): seq<real> {
    if size.Three? then Flatten(Horizontal3) else Flatten(Horizontal5)
  }

  /** The vertical kernel of each size, flattened. */
  function VerticalWeights(size: KernelSize): seq<real> {
    if size.Three? then Flatten(Vertical3) else Flatten(Vertical5)
  }

  /** Each vertical kernel is the transpose of the horizontal one. */
  lemma VerticalIsTransposed()
    ensures Square(Horizontal3) && Vertical3 == Transpose(Horizontal3)
    ensures Square(Horizontal5) && Vertical5 == Transpose(Horizontal5)
  {
    var t3 := Transpose(Horizontal3);
    assert t3[0] == Vertical3[0] && t3[1] == Vertical3[1] && t3[2] == Vertical3[2];
    var t5 := Transpose(Horizontal5);
    assert t5[0] == Vertical5[0] && t5[1] == Vertical5[1] && t5[2] == Vertical5[2];
    assert t5[3] == Vertical5[3] && t5[4] == Vertical5[4];
  }

  /** Flattening n rows of k entries gives n·k entries. */
  lemma {:induction false} FlattenLength(m: seq<seq<real>>, k: nat)
    requires forall r :: 0 <= r < |m| ==> |m[r]| == k
    ensures |Flatten(m)| == |m| * k
    decreases |m|
  {
    if |m| > 0 {
      FlattenLength(m[1..], k);
      assert |m| * k == k + (|m| - 1) * k;
    }
  }

  /** The sum of a concatenation is the sum of the sums. */
  lemma {:induction false} SumAppend(a: seq<real>, b: seq<real>)
    ensures Sum(a + b) == Sum(a) + Sum(b)
    decreases |a|
  {
    if |a| > 0 {
      SumAppend(a[1..], b);
      assert (a + b)[1..] == a[1..] + b;
    } else {
      assert a + b == b;
    }
  }

  /** A flattened matrix sums to the sum of its row sums. */
  lemma {:induction false} SumFlatten(m: seq<seq<real>>)
    ensures Sum(Flatten(m)) == SumOfRows(m)
    decreases |m|
  {
    if |m| > 0 {
      SumAppend(m[0], Flatten(m[1..]));
      SumFlatten(m[1..]);
    }
  }

  /** Scaling a vector scales its sum. */
  lemma {:induction false} SumScaled(v: seq<real>, factor: real)
    ensures Sum(Scaled(v, factor)) == Sum(v) * factor
    decreases |v|
  {
    if |v| > 0 {
      SumScaled(v[1..], factor);
      assert Scaled(v, factor)[1..] == Scaled(v[1..], factor);
      assert (v[0] + Sum(v[1..])) * factor == v[0] * factor + Sum(v[1..]) * factor;
    }
  }

  lemma Kernels3x3SumToZero()
    ensures Sum(Flatten(Horizontal3)) == 0.0 && Sum(Flatten(Vertical3)) == 0.0
  {
    SumFlatten(Horizontal3);
    SumFlatten(Vertical3);
    assert Sum(Horizontal3[0]) == 0.0 && Sum(Horizontal3[1]) == 0.0 && Sum(Horizontal3[2]) == 0.0;
    assert Sum(Vertical3[0]) == -4.0 && Sum(Vertical3[1]) == 0.0 && Sum(Vertical3[2]) == 4.0;
  }

  lemma Horizontal5x5SumsToZero()
    ensures Sum(Flatten(Horizontal5)) == 0.0
  {
    SumFlatten(Horizontal5);
    assert Sum(Horizontal5[0]) == 0.0 && Sum(Horizontal5[1]) == 0.0 && Sum(Horizontal5[2]) == 0.0;
    assert Sum(Horizontal5[3]) == 0.0 && Sum(Horizontal5[4]) == 0.0;
  }

  lemma Vertical5x5SumsToZero()
    ensures Sum(Flatten(Vertical5)) == 0.0
  {
    SumFlatten(Vertical5);
    assert Sum(Vertical5[0]) == -16.0 && Sum(Vertical5[1]) == -32.0 && Sum(Vertical5[2]) == 0.0;
    assert Sum(Vertical5[3]) == 32.0 && Sum(Vertical5[4]) == 16.0;
  }

  /** Every kernel's entries sum to zero, so a region of constant colour
      has no edge response; the weighted kernels keep that property. */
  lemma KernelsSumToZero(size: KernelSize, weight: real)
    ensures Sum(HorizontalWeights(size)) == 0.0 && Sum(VerticalWeights(size)) == 0.0
    ensures Sum(Scaled(HorizontalWeights(size), weight)) == 0.0
    ensures Sum(Scaled(VerticalWeights(size), weight)) == 0.0
  {
    if size.Three? {
      Kernels3x3SumToZero();
    } else {
      Horizontal5x5SumsToZero();
      Vertical5x5SumsToZero();
    }
    SumScaled(HorizontalWeights(size), weight);
    SumScaled(VerticalWeights(size), weight);
  }

  /** sobel(sourceImage:filterName:horizontalWeights:verticalWeights:): the
      horizontal and then the vertical convolution, each with the kernel
      scaled by the weight and the given bias, cropped to the source.
      The convolutions are recorded over the source's extent. */
  function SobelImage(source: Image, size: KernelSize, weight: real, bias: real): (out: Image)
    ensures out.Extent() == source.Extent()
    ensures out.Applied? && |out.inputs| == 1 && out.inputs[0].Applied?
    ensures out.inputs[0].kernel == size.FilterName()
      && out.inputs[0].args == Scaled(VerticalWeights(size), weight) + [bias]
    ensures out.inputs[0].inputs ==
      [Applied(size.FilterName(), [source], Scaled(HorizontalWeights(size), weight) + [bias], source.Extent())]
  {
    var horizontal := Applied(size.FilterName(), [source], Scaled(HorizontalWeights(size), weight) + [bias],
                              source.Extent());
    var vertical := Applied(size.FilterName(), [horizontal], Scaled(VerticalWeights(size), weight) + [bias],
                            source.Extent());
    Applied("cropped", [vertical], [], source.Extent())
  }

  /** The outline made opaque over the input's extent. */
  function Outline(input: Image, size: KernelSize, weight: real, bias: real): (out: Image)
    ensures out.Extent() == input.Extent() && out.Applied? && out.kernel == "makeOpaque"
  {
    Applied("makeOpaque", [SobelImage(input, size, weight, bias)], [], input.Extent())
  }

  class SobelOutline {
    const size: KernelSize
    var inputImage: Option<Image>
    var inputBias: real
    var inputWeight: real

    constructor (size: KernelSize)
      ensures this.size == size && inputImage.None? && inputBias == 0.0 && inputWeight == 0.0
    {
      this.size := size;
      inputImage := None;
      inputBias, inputWeight := 0.0, 0.0;
    }

    /** setValue(_:forKey:): the image, bias and weight keys each take a
        value of their own type only; anything else changes nothing. */
    method SetValue(value: Option<Value>, key: string)
      modifies this
      ensures inputImage ==
        if key == InputImageKey && value.Some? && value.value.ImageValue? then Some(value.value.image) else old(inputImage)
      ensures inputBias ==
        if key == InputBiasKey && value.Some? && value.value.RealValue? then value.value.r else old(inputBias)
      ensures inputWeight ==
        if key == InputWeightsKey && value.Some? && value.value.RealValue? then value.value.r else old(inputWeight)
    {
      if key == InputImageKey && value.Some? && value.value.ImageValue? {
        inputImage := Some(value.value.image);
      } else if key == InputBiasKey && value.Some? && value.value.RealValue? {
        inputBias := value.value.r;
      } else if key == InputWeightsKey && value.Some? && value.value.RealValue? {
        inputWeight := value.value.r;
      }
    }

    /** value(forKey:): bias, weight and the kernel size; nil otherwise. */
    function ValueFor(key: string): (v: Option<Value>)
      reads this
      ensures key == InputBiasKey ==> v == Some(RealValue(inputBias))
      ensures key == InputWeightsKey ==> v == Some(RealValue(inputWeight))
      ensures key == InputScaleKey ==> v == Some(IntValue(size.Value())) && (v.value.i == 3 || v.value.i == 5)
      ensures key !in {InputBiasKey, InputWeightsKey, InputScaleKey} ==> v == None
    {
      if key == InputBiasKey then Some(RealValue(inputBias))
      else if key == InputWeightsKey then Some(RealValue(inputWeight))
      else if key == InputScaleKey then Some(IntValue(size.Value()))
      else None
    }

    /** outputImage as written: nil without an input; the 3 × 3 filter
        returns its input unchanged when bias and weight are both zero; the
        5 × 5 filter always draws the outline. */
    function OutputImageAsWritten(): (out: Option<Image>)
      reads this
      ensures inputImage.None? <==> out.None?
      ensures size.Three? && inputBias == 0.0 && inputWeight == 0.0 ==> out == inputImage
      ensures size.Five? && inputImage.Some? ==>
        out == Some(Outline(inputImage.value, size, inputWeight, inputBias))
    {
      match inputImage
      case None => None
      case Some(input) =>
        if size.Three? && inputBias == 0.0 && inputWeight == 0.0 then Some(input)
        else Some(Outline(input, size, inputWeight, inputBias))
    }

    /** outputImage with the zero-parameter pass-through for both sizes:
        nil without an input, the input itself when bias and weight are
        zero, and otherwise the opaque outline over the input's extent. */
    function OutputImage(): (out: Option<Image>)
      reads this
      ensures inputImage.None? <==> out.None?
      ensures inputBias == 0.0 && inputWeight == 0.0 ==> out == inputImage
      ensures out.Some? && !(inputBias == 0.0 && inputWeight == 0.0) ==>
        out.value == Outline(inputImage.value, size, inputWeight, inputBias)
        && out.value.Extent() == inputImage.value.Extent()
    {
      match inputImage
      case None => None
      case Some(input) =>
        if inputBias == 0.0 && inputWeight == 0.0 then Some(input)
        else Some(Outline(input, size, inputWeight, inputBias))
    }
  }

  /** As written, a 5 × 5 filter with its default parameters does not pass
      its input through: it convolves with an all-zero kernel and zero bias,
      so every pixel becomes zero before being made opaque (black). */
  lemma FiveByFiveZeroParametersBlack(f: SobelOutline, input: Image)
    requires f.size.Five? && f.inputImage == Some(input) && f.inputBias == 0.0 && f.inputWeight == 0.0
    ensures f.OutputImageAsWritten() == Some(Outline(input, Five, 0.0, 0.0))
    ensures f.OutputImage() == Some(input)
    ensures var out := f.OutputImageAsWritten().value.inputs[0];
      out.Applied? && out.inputs[0].Applied?
      && out.inputs[0].args == seq(25, _ => 0.0) + [0.0]
  {
    assert f.OutputImageAsWritten().value.inputs[0] == SobelImage(input, Five, 0.0, 0.0);
    ZeroWeightFiveArgs(input);
  }

  /** With zero weight and bias every one of the 25 weights of the 5 × 5
      pass, and its bias, is zero. */
  lemma ZeroWeightFiveArgs(input: Image)
    ensures SobelImage(input, Five, 0.0, 0.0).inputs[0].args == seq(25, _ => 0.0) + [0.0]
  {
    ScaledByZero(VerticalWeights(Five));
    FlattenLength(Vertical5, 5);
  }

  /** Bias and weight read back as stored; a value of the wrong type is
      ignored. */
  method ParameterRoundTrip(f: SobelOutline, bias: real, weight: real) returns (readBias: Option<Value>, readWeight: Option<Value>)
    modifies f
    ensures readBias == Some(RealValue(bias)) && readWeight == Some(RealValue(weight))
    ensures f.inputImage == old(f.inputImage)
  {
    f.SetValue(Some(RealValue(bias)), InputBiasKey);
    f.SetValue(Some(RealValue(weight)), InputWeightsKey);
    f.SetValue(Some(StringValue("ignored")), InputBiasKey);
    readBias := f.ValueFor(InputBiasKey);
    readWeight := f.ValueFor(InputWeightsKey);
  }
}
