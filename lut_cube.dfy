/**
 * The LUTCube filter: a colour lookup table read from a bundled image and
 * handed to CoreImage's CIColorCube, blended with the input by a
 * `transport` kernel. The lookup image is a grid of d×d tiles; getCubeData
 * reshapes its RGBA bytes into the flat cube layout CIColorCube expects.
 */
module LutCube {
  import opened CoreTypes

  /** The cube dimension outputImage asks for. */
  const Dimension: nat := 64
  /** MemoryLayout<Float>.size */
  const FloatSize: nat := 4
  /** LUTCube.forceRefreshKey (spelled as in the source) */
  const ForceRefreshKey := "foreRefresh"

  // ---------------------------------------------------------------------
  // Index arithmetic of getCubeData

  /** Index in the float array of channel ch of pixel (x, y) of tile
      (r, c): dataOffset + ch, where z = r·columnNum + c. */
  function CubeIndex(r: nat, c: nat, y: nat, x: nat, ch: nat, cols: nat, d: nat): nat {
    Mix(Mix(Mix(Mix(r, c, cols), y, d), x, d), ch, 4)
  }

  /** The mixed-radix step a·n + b of the offset computations. */
  function Mix(a: nat, b: nat, n: nat): nat {
    a * n + b
  }

  /** Texel number of the bitmap read for tile row r, pixel line y, tile
      column c, pixel x: the loops visit (r, y, c, x) in this lexicographic
      order and bitmapOffset advances by one texel per visit. */
  function SourceTexel(r: nat, y: nat, c: nat, x: nat, cols: nat, d: nat): nat {
    Mix(Mix(Mix(r, y, d), c, cols), x, d)
  }

  /** bitmapOffset + ch for the texel above. */
  function SourceIndex(r: nat, y: nat, c: nat, x: nat, ch: nat, cols: nat, d: nat): nat {
    4 * SourceTexel(r, y, c, x, cols, d) + ch
  }

  /** `Float(byte) / 255` */
  function Component(byte: int): real {
    byte as real / 255.0
  }

  lemma MulMono(a: nat, b: nat, n: nat)
    requires a <= b
    ensures a * n <= b * n
  {
    var e := b - a;
    assert b * n == a * n + e * n;
  }

  /** Mixed-radix digits are unique. */
  lemma MixInjective(a: nat, b: nat, a': nat, b': nat, n: nat)
    requires b < n && b' < n && Mix(a, b, n) == Mix(a', b', n)
    ensures a == a' && b == b'
  {
    if a < a' {
      MulMono(a + 1, a', n);
    } else if a' < a {
      MulMono(a' + 1, a, n);
    }
  }

  lemma MixBound(a: nat, b: nat, A: nat, n: nat)
    requires a < A && b < n
    ensures Mix(a, b, n) < A * n
  {
    MulMono(a + 1, A, n);
  }

  /** Distinct (tile, y, x, channel) give distinct dataOffset + ch: no two
      writes of the loops overlap. */
  lemma CubeIndexInjective(r: nat, c: nat, y: nat, x: nat, ch: nat,
                           r': nat, c': nat, y': nat, x': nat, ch': nat, cols: nat, d: nat)
    requires c < cols && y < d && x < d && ch < 4 && c' < cols && y' < d && x' < d && ch' < 4
    requires CubeIndex(r, c, y, x, ch, cols, d) == CubeIndex(r', c', y', x', ch', cols, d)
    ensures r == r' && c == c' && y == y' && x == x' && ch == ch'
  {
    MixInjective(Mix(Mix(Mix(r, c, cols), y, d), x, d), ch, Mix(Mix(Mix(r', c', cols), y', d), x', d), ch', 4);
    MixInjective(Mix(Mix(r, c, cols), y, d), x, Mix(Mix(r', c', cols), y', d), x', d);
    MixInjective(Mix(r, c, cols), y, Mix(r', c', cols), y', d);
    MixInjective(r, c, r', c', cols);
  }

  /** Distinct loop iterations read distinct bitmap texels. */
  lemma SourceTexelInjective(r: nat, y: nat, c: nat, x: nat, r': nat, y': nat, c': nat, x': nat, cols: nat, d: nat)
    requires y < d && c < cols && x < d && y' < d && c' < cols && x' < d
    requires SourceTexel(r, y, c, x, cols, d) == SourceTexel(r', y', c', x', cols, d)
    ensures r == r' && y == y' && c == c' && x == x'
  {
    MixInjective(Mix(Mix(r, y, d), c, cols), x, Mix(Mix(r', y', d), c', cols), x', d);
    MixInjective(Mix(r, y, d), c, Mix(r', y', d), c', cols);
    MixInjective(r, y, r', y', d);
  }

  lemma Reorder(rows: nat, cols: nat, d: nat)
    ensures rows * d * cols * d == rows * cols * d * d
  {
    assert rows * d * cols == rows * cols * d;
  }

  /** Every write index lies below 4·rowNum·columnNum·d², and every read
      index below 4·rowNum·columnNum·d². */
  lemma IndexBounds(rows: nat, cols: nat, d: nat)
    ensures forall r: nat, c: nat, y: nat, x: nat, ch: nat :: r < rows && c < cols && y < d && x < d && ch < 4 ==>
      CubeIndex(r, c, y, x, ch, cols, d) < 4 * (rows * cols * d * d)
    ensures forall r: nat, y: nat, c: nat, x: nat, ch: nat :: r < rows && c < cols && y < d && x < d && ch < 4 ==>
      SourceIndex(r, y, c, x, ch, cols, d) < 4 * (rows * cols * d * d)
  {
    forall r: nat, c: nat, y: nat, x: nat, ch: nat | r < rows && c < cols && y < d && x < d && ch < 4
      ensures CubeIndex(r, c, y, x, ch, cols, d) < 4 * (rows * cols * d * d)
      ensures SourceIndex(r, y, c, x, ch, cols, d) < 4 * (rows * cols * d * d)
    {
      MixBound(r, c, rows, cols);
      MixBound(Mix(r, c, cols), y, rows * cols, d);
      MixBound(Mix(Mix(r, c, cols), y, d), x, rows * cols * d, d);
      MixBound(Mix(Mix(Mix(r, c, cols), y, d), x, d), ch, rows * cols * d * d, 4);
      MixBound(r, y, rows, d);
      MixBound(Mix(r, y, d), c, rows * d, cols);
      MixBound(Mix(Mix(r, y, d), c, cols), x, rows * d * cols, d);
      Reorder(rows, cols, d);
    }
  }

  /** With rowNum·columnNum ≤ 4d every write stays below dataSize floats, and
      the bitmap of a width×height image holds every byte the loops read. */
  lemma SizeBounds(width: nat, height: nat, d: nat)
    requires d > 0 && (width / d) * (height / d) <= 4 * d
    ensures 4 * ((width / d) * (height / d) * d * d) <= d * d * d * FloatSize * 4
    ensures 4 * ((width / d) * (height / d) * d * d) <= width * 4 * height
  {
    CubeFitsData(width, height, d);
    CubeFitsBitmap(width, height, d);
  }

  lemma CubeFitsData(width: nat, height: nat, d: nat)
    requires d > 0 && (width / d) * (height / d) <= 4 * d
    ensures 4 * ((width / d) * (height / d) * d * d) <= d * d * d * FloatSize * 4
  {
    TilesFit((width / d) * (height / d), d);
  }

  /** k ≤ 4d tiles of d² pixels of 4 floats fit in d³·4 floats of 4 bytes. */
  lemma TilesFit(k: nat, d: nat)
    requires k <= 4 * d
    ensures 4 * (k * d * d) <= d * d * d * FloatSize * 4
  {
    var m := d * d;
    MulMono(k, 4 * d, m);
    assert k * d * d == k * m;
    assert (4 * d) * m * 4 == d * d * d * FloatSize * 4;
  }

  lemma CubeFitsBitmap(width: nat, height: nat, d: nat)
    requires d > 0
    ensures 4 * ((width / d) * (height / d) * d * d) <= width * 4 * height
  {
    var rows, cols := width / d, height / d;
    assert rows * d <= width && cols * d <= height;
    MulMono(rows * d, width, cols * d);
    MulMono(cols * d, height, width);
    assert rows * cols * d * d == (rows * d) * (cols * d);
  }

  /** What getCubeData returns for the RGBA bytes of a width×height image
      at dimension d: d³·4 floats where channel ch of pixel (x, y) of tile
      (r, c) is the byte read for it divided by 255, every float past the
      rowNum·columnNum tiles is 0, and all lie in [0, 1]. */
  ghost predicate CubeOf(data: seq<real>, bitmap: seq<int>, width: nat, height: nat, d: nat)
    requires d > 0
  {
    var rows, cols := width / d, height / d;
    |data| == d * d * d * 4 &&
    (forall r: nat, c: nat, y: nat, x: nat, ch: nat ::
      r < rows && c < cols && y < d && x < d && ch < 4 && CubeIndex(r, c, y, x, ch, cols, d) < |data| ==>
        SourceIndex(r, y, c, x, ch, cols, d) < |bitmap| &&
        data[CubeIndex(r, c, y, x, ch, cols, d)] == Component(bitmap[SourceIndex(r, y, c, x, ch, cols, d)])) &&
    (forall i :: 0 <= i && 4 * (rows * cols * d * d) <= i < |data| ==> data[i] == 0.0) &&
    (forall i :: 0 <= i < |data| ==> 0.0 <= data[i] <= 1.0)
  }

  /** getCubeData(lutImage:dimension:colorSpace:) on the RGBA bytes of a
      width×height image (createBitmap's buffer, width·4 bytes per line).
      The array holds dataSize floats and the returned Data keeps its first
      dataSize bytes, that is dataSize / 4 floats. A bitmap with more than 4·d
      tiles would index past the array and trap. `read` is the final
      bitmapOffset. */
  method GetCubeData(bitmap: seq<int>, width: nat, height: nat, d: nat) returns (data: seq<real>, ghost read: nat)
    requires d > 0 && |bitmap| == width * 4 * height
    requires forall j :: 0 <= j < |bitmap| ==> 0 <= bitmap[j] <= 255
    requires (width / d) * (height / d) <= 4 * d
    ensures read == 4 * ((width / d) * (height / d) * d * d) <= |bitmap|
    ensures CubeOf(data, bitmap, width, height, d)
    ensures (width / d) * (height / d) == d ==> read == |data|
  {
    var rowNum, columnNum := width / d, height / d;
    SizeBounds(width, height, d);
    IndexBounds(rowNum, columnNum, d);
    ghost var total := rowNum * columnNum * d * d;
    var dataSize := d * d * d * FloatSize * 4;
    var cube := new real[dataSize](_ => 0.0);
    var bitmapOffset: nat := 0;
    var z: nat := 0;
    for r := 0 to rowNum
      invariant z == Mix(r, 0, columnNum) && bitmapOffset == 4 * SourceTexel(r, 0, 0, 0, columnNum, d)
      invariant Copied(cube, bitmap, rowNum, columnNum, d, bitmapOffset / 4)
    {
      for y := 0 to d
        invariant z == Mix(r, 0, columnNum) && bitmapOffset == 4 * SourceTexel(r, y, 0, 0, columnNum, d)
        invariant Copied(cube, bitmap, rowNum, columnNum, d, bitmapOffset / 4)
      {
        var tmp := z;
        for c := 0 to columnNum
          invariant z == Mix(r, c, columnNum) && bitmapOffset == 4 * SourceTexel(r, y, c, 0, columnNum, d)
          invariant Copied(cube, bitmap, rowNum, columnNum, d, bitmapOffset / 4)
        {
          for x := 0 to d
            invariant bitmapOffset == 4 * SourceTexel(r, y, c, x, columnNum, d)
            invariant Copied(cube, bitmap, rowNum, columnNum, d, bitmapOffset / 4)
          {
            var dataOffset := (z * d * d + y * d + x) * 4;
            DataOffset(z, r, c, y, x, columnNum, d);
            CopyTexel(cube, bitmap, rowNum, columnNum, d, r, c, y, x, dataOffset, bitmapOffset);
            bitmapOffset := bitmapOffset + 4;
          }
          Carry(Mix(Mix(r, y, d), c, columnNum), d);
          z := z + 1;
        }
        Carry(Mix(r, y, d), columnNum);
        z := tmp;
      }
      Carry(r, d);
      Carry(r, columnNum);
      z := z + columnNum;
    }
    Reorder(rowNum, columnNum, d);
    data := cube[..dataSize / FloatSize];
    read := bitmapOffset;
    CopiedAll(cube, bitmap, width, height, d);
  }

  /** Once every texel is copied the first d³·4 floats are the cube. */
  lemma CopiedAll(cube: array<real>, bitmap: seq<int>, width: nat, height: nat, d: nat)
    requires d > 0 && cube.Length == d * d * d * FloatSize * 4
    requires Copied(cube, bitmap, width / d, height / d, d, (width / d) * (height / d) * d * d)
    ensures CubeOf(cube[..d * d * d * 4], bitmap, width, height, d)
  {
    var rows, cols := width / d, height / d;
    IndexBounds(rows, cols, d);
  }

  /** A full digit carries into the next: a·n + n = (a + 1)·n. */
  lemma Carry(a: nat, n: nat)
    ensures Mix(a, n, n) == Mix(a + 1, 0, n)
  {
  }

  /** The source's dataOffset formula is CubeIndex at channel 0. */
  lemma DataOffset(z: nat, r: nat, c: nat, y: nat, x: nat, cols: nat, d: nat)
    requires z == Mix(r, c, cols)
    ensures (z * d * d + y * d + x) * 4 == CubeIndex(r, c, y, x, 0, cols, d)
  {
    assert z * d * d + y * d == (z * d + y) * d;
  }

  /** What the loops have done once the first k bitmap texels are copied:
      each visited (r, y, c, x) has its four bytes / 255 at its cube index,
      nothing at or above 4·rowNum·columnNum·d² was written, and every entry
      lies in [0, 1]. */
  ghost predicate Copied(cube: array<real>, bitmap: seq<int>, rows: nat, cols: nat, d: nat, k: nat)
    reads cube
  {
    4 * (rows * cols * d * d) <= cube.Length &&
    4 * (rows * cols * d * d) <= |bitmap| &&
    (forall r: nat, c: nat, y: nat, x: nat, ch: nat ::
      r < rows && c < cols && y < d && x < d && ch < 4 && SourceTexel(r, y, c, x, cols, d) < k ==>
        CubeIndex(r, c, y, x, ch, cols, d) < cube.Length && SourceIndex(r, y, c, x, ch, cols, d) < |bitmap| &&
        cube[CubeIndex(r, c, y, x, ch, cols, d)] == Component(bitmap[SourceIndex(r, y, c, x, ch, cols, d)])) &&
    (forall i :: 0 <= i && 4 * (rows * cols * d * d) <= i < cube.Length ==> cube[i] == 0.0) &&
    (forall i :: 0 <= i < cube.Length ==> 0.0 <= cube[i] <= 1.0)
  }

  /** The four components of one texel are the only indices a different
      (tile, y, x) does not reach. */
  lemma Disjoint(r': nat, c': nat, y': nat, x': nat, ch': nat, r: nat, c: nat, y: nat, x: nat, cols: nat, d: nat)
    requires c < cols && y < d && x < d && c' < cols && y' < d && x' < d && ch' < 4
    requires (r', c', y', x') != (r, c, y, x)
    ensures CubeIndex(r', c', y', x', ch', cols, d) != CubeIndex(r, c, y, x, 0, cols, d)
    ensures CubeIndex(r', c', y', x', ch', cols, d) != CubeIndex(r, c, y, x, 1, cols, d)
    ensures CubeIndex(r', c', y', x', ch', cols, d) != CubeIndex(r, c, y, x, 2, cols, d)
    ensures CubeIndex(r', c', y', x', ch', cols, d) != CubeIndex(r, c, y, x, 3, cols, d)
  {
    for j := 0 to 4
      invariant forall j' :: 0 <= j' < j ==> CubeIndex(r', c', y', x', ch', cols, d) != CubeIndex(r, c, y, x, j', cols, d)
    {
      if CubeIndex(r', c', y', x', ch', cols, d) == CubeIndex(r, c, y, x, j, cols, d) {
        CubeIndexInjective(r', c', y', x', ch', r, c, y, x, j, cols, d);
      }
    }
  }

  /** The body of the innermost loop: four component writes. */
  method CopyTexel(cube: array<real>, bitmap: seq<int>, rows: nat, cols: nat, d: nat,
                   r: nat, c: nat, y: nat, x: nat, dataOffset: nat, bitmapOffset: nat)
    requires r < rows && c < cols && y < d && x < d
    requires forall j :: 0 <= j < |bitmap| ==> 0 <= bitmap[j] <= 255
    requires dataOffset == CubeIndex(r, c, y, x, 0, cols, d)
    requires bitmapOffset == 4 * SourceTexel(r, y, c, x, cols, d)
    requires Copied(cube, bitmap, rows, cols, d, bitmapOffset / 4)
    modifies cube
    ensures Copied(cube, bitmap, rows, cols, d, bitmapOffset / 4 + 1)
  {
    IndexBounds(rows, cols, d);
    assert CubeIndex(r, c, y, x, 3, cols, d) < cube.Length;
    assert SourceIndex(r, y, c, x, 3, cols, d) < |bitmap|;
    assert dataOffset + 1 == CubeIndex(r, c, y, x, 1, cols, d);
    assert dataOffset + 2 == CubeIndex(r, c, y, x, 2, cols, d);
    assert dataOffset + 3 == CubeIndex(r, c, y, x, 3, cols, d);
    ghost var before := cube[..];
    cube[dataOffset + 0] := Component(bitmap[bitmapOffset + 0]);
    cube[dataOffset + 1] := Component(bitmap[bitmapOffset + 1]);
    cube[dataOffset + 2] := Component(bitmap[bitmapOffset + 2]);
    cube[dataOffset + 3] := Component(bitmap[bitmapOffset + 3]);
    ghost var k := bitmapOffset / 4;
    forall r': nat, c': nat, y': nat, x': nat, ch': nat | r' < rows && c' < cols && y' < d && x' < d && ch' < 4 &&
                                 SourceTexel(r', y', c', x', cols, d) < k + 1
      ensures CubeIndex(r', c', y', x', ch', cols, d) < cube.Length
      ensures cube[CubeIndex(r', c', y', x', ch', cols, d)] == Component(bitmap[SourceIndex(r', y', c', x', ch', cols, d)])
    {
      if SourceTexel(r', y', c', x', cols, d) == k {
        SourceTexelInjective(r', y', c', x', r, y, c, x, cols, d);
        assert CubeIndex(r', c', y', x', ch', cols, d) == dataOffset + ch';
      } else {
        var i := CubeIndex(r', c', y', x', ch', cols, d);
        Disjoint(r', c', y', x', ch', r, c, y, x, cols, d);
        assert cube[i] == before[i];
      }
    }
  }

  // ---------------------------------------------------------------------
  // The filter object

  /** A bundled lookup image as createBitmap draws it: RGBA bytes, width·4 per line. */
  datatype LutBitmap = LutBitmap(width: nat, height: nat, bytes: seq<int>) {
    predicate Valid() {
      |bytes| == width * 4 * height && forall j :: 0 <= j < |bytes| ==> 0 <= bytes[j] <= 255
    }
    /** The bitmap can be reshaped at dimension d without indexing past the array. */
    predicate Fits(d: nat) {
      d > 0 && (width / d) * (height / d) <= 4 * d
    }
  }

  /** The CIColorCube image of `input` with the given cube data. */
  function ColorCube(input: Image, cube: seq<real>): Image {
    Applied("CIColorCube", [input], [Dimension as real] + cube, input.Extent())
  }

  class LUTCube {
    var inputImage: Option<Image>
    var lutName: Option<string>
    var lutData: Option<seq<real>>
    var inputIntensity: real
    var storedOutputImage: Option<Image>
    var forceRefresh: bool

    constructor ()
      ensures inputImage == None && lutName == None && lutData == None
      ensures inputIntensity == 1.0 && storedOutputImage == None && !forceRefresh
    {
      inputImage := None;
      lutName := None;
      lutData := None;
      inputIntensity := 1.0;
      storedOutputImage := None;
      forceRefresh := false;
    }

    /** setValue(_:forKey:). A new LUT name drops the cached cube data and
        output; the same name keeps them. A value of the wrong type is ignored,
        except for the input image, which it clears. */
    method SetValue(value: Option<Value>, key: string)
      modifies this
      ensures key == InputImageKey ==>
        inputImage == (if value.Some? && value.value.ImageValue? then Some(value.value.image) else None)
      ensures key != InputImageKey ==> inputImage == old(inputImage)
      ensures key == InputMaskImageKey && value.Some? && value.value.StringValue? ==>
        lutName == Some(value.value.s) &&
        (if old(lutName) == Some(value.value.s) then lutData == old(lutData) && storedOutputImage == old(storedOutputImage)
         else lutData == None && storedOutputImage == None)
      ensures !(key == InputMaskImageKey && value.Some? && value.value.StringValue?) ==>
        lutName == old(lutName) && lutData == old(lutData) && storedOutputImage == old(storedOutputImage)
      ensures inputIntensity == (if key == InputIntensityKey && value.Some? && value.value.RealValue?
                                 then value.value.r else old(inputIntensity))
      ensures forceRefresh == (if key == ForceRefreshKey && value.Some? && value.value.BoolValue?
                               then value.value.b else old(forceRefresh))
    {
      if key == InputImageKey {
        inputImage := if value.Some? && value.value.ImageValue? then Some(value.value.image) else None;
      } else if key == InputMaskImageKey && value.Some? && value.value.StringValue? {
        var newLutName := value.value.s;
        if Some(newLutName) != lutName {
          lutData := None;
          storedOutputImage := None;
        }
        lutName := Some(newLutName);
      } else if key == InputIntensityKey && value.Some? && value.value.RealValue? {
        inputIntensity := value.value.r;
      } else if key == ForceRefreshKey && value.Some? && value.value.BoolValue? {
        forceRefresh := value.value.b;
      }
    }

    /** value(forKey:) */
    function ValueFor(key: string): (v: Option<Value>)
      reads this
      ensures key == InputMaskImageKey ==> v == (if lutName.Some? then Some(StringValue(lutName.value)) else None)
      ensures key == InputIntensityKey ==> v == Some(RealValue(inputIntensity))
      ensures key != InputMaskImageKey && key != InputIntensityKey ==> v == None
    {
      if key == InputMaskImageKey then
        (if lutName.Some? then Some(StringValue(lutName.value)) else None)
      else if key == InputIntensityKey then Some(RealValue(inputIntensity))
      else None
    }

    /** outputImage. `lutImage` is the bundled image named lutName (None when
        there is none). Without a LUT name the input passes through. */
    method OutputImage(lutImage: Option<LutBitmap>) returns (out: Option<Image>)
      requires lutName.Some? && inputImage.Some? && lutImage.Some? && lutData.None? ==>
        lutImage.value.Valid() && lutImage.value.Fits(Dimension)
      modifies this
      ensures inputImage == old(inputImage) && lutName == old(lutName)
      ensures inputIntensity == old(inputIntensity) && forceRefresh == old(forceRefresh)
      ensures old(lutName).None? ==> out == old(inputImage)
      ensures old(lutName).Some? && (old(inputImage).None? || lutImage.None?) ==> out == None
      ensures old(lutName).None? || old(inputImage).None? || lutImage.None? ==>
        lutData == old(lutData) && storedOutputImage == old(storedOutputImage)
      ensures old(lutName).Some? && old(inputImage).Some? && lutImage.Some? ==>
        var b := lutImage.value;
        var input := old(inputImage).value;
        lutData.Some? &&
        (if old(lutData).None?
                    then CubeOf(lutData.value, b.bytes, b.width, b.height, Dimension)
                    else lutData == old(lutData)) &&
        storedOutputImage == (if old(storedOutputImage).None? || forceRefresh
                              then Some(ColorCube(input, lutData.value)) else old(storedOutputImage)) &&
        storedOutputImage.Some? &&
        out == Some(Applied("transport", [input, storedOutputImage.value], [inputIntensity], input.Extent()))
    {
      if lutName.None? {
        return inputImage;
      }
      if inputImage.None? || lutImage.None? {
        return None;
      }
      if lutData.None? {
        var b := lutImage.value;
        var newLutData, _ := GetCubeData(b.bytes, b.width, b.height, Dimension);
        lutData := Some(newLutData);
      }
      var input := inputImage.value;
      var filtered := ColorCube(input, lutData.value);
      if storedOutputImage.None? || forceRefresh {
        storedOutputImage := Some(filtered);
      }
      out := Some(Applied("transport", [input, storedOutputImage.value], [inputIntensity], input.Extent()));
    }
  }
}
