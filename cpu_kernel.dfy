/**
 * The CPU backend: alpha premultiplication and unpremultiplication, and the
 * spool and barrel warps (with the 2×2 supersampled barrel variant). Every
 * kernel walks the output grid row by row and writes slot y·w + x from the
 * input image, which it only reads. The `omp parallel for` loops of the
 * source run sequentially here.
 */
module CpuKernel {
  import opened Pixels
  import opened Parameter
  import opened Sampling

  /** `SAMPLE_NUM`: sub-samples per axis in the anti-aliased barrel path. */
  const SampleNum: nat := 2

  // ---------------------------------------------------------------------------
  // Alpha handling, pixel by pixel

  /** Premultiply: colour times the raw 0..255 alpha; alpha is copied. */
  function PremultPixel(p: Pixel8): PixelF {
    var alpha := p.a as real;
    PixelF(p.c0 as real * alpha, p.c1 as real * alpha, p.c2 as real * alpha, alpha)
  }

  /** Unpremultiply: colour divided by alpha and cast to 8 bits; zero alpha gives (0, 0, 0, 0). */
  function UnpremultPixel(q: PixelF): Pixel8 {
    var alpha := q.a;
    if alpha != 0.0 then
      Pixel8(ToByte(q.c0 / alpha), ToByte(q.c1 / alpha), ToByte(q.c2 / alpha), ToByte(alpha))
    else
      Zero8
  }

  /** What a premultiply/unpremultiply round trip leaves of an 8-bit pixel. */
  function ClearIfTransparent(p: Pixel8): Pixel8 {
    if p.a != 0 then p else Zero8
  }

  lemma ByteRoundTrip(c: byte)
    ensures ToByte(c as real) == c
  {
    assert (c as real).Floor == c;
  }

  lemma DivideBack(x: real, alpha: real, c: real)
    requires alpha != 0.0 && x == c * alpha
    ensures x / alpha == c
  {
  }

  /** Unpremultiplying a pixel whose quotients are exactly the channels of p gives p back. */
  lemma UnpremultExact(q: PixelF, p: Pixel8)
    requires p.a != 0 && q.a == p.a as real
    requires q.c0 / q.a == p.c0 as real && q.c1 / q.a == p.c1 as real && q.c2 / q.a == p.c2 as real
    ensures UnpremultPixel(q) == p
  {
    ByteRoundTrip(p.c0);
    ByteRoundTrip(p.c1);
    ByteRoundTrip(p.c2);
    ByteRoundTrip(p.a);
  }

  /**
   * Premultiply followed by unpremultiply returns every 8-bit pixel with
   * non-zero alpha unchanged, and maps every pixel with zero alpha to
   * (0, 0, 0, 0): the product c·a is exact and so is the division.
   */
  lemma PremultRoundTrip(p: Pixel8)
    ensures UnpremultPixel(PremultPixel(p)) == ClearIfTransparent(p)
  {
    var q := PremultPixel(p);
    if p.a != 0 {
      DivideBack(q.c0, q.a, p.c0 as real);
      DivideBack(q.c1, q.a, p.c1 as real);
      DivideBack(q.c2, q.a, p.c2 as real);
      UnpremultExact(q, p);
    }
  }

  /** Zero alpha unpremultiplies to (0, 0, 0, 0) whatever the colour channels hold. */
  lemma UnpremultTransparent(q: PixelF)
    requires q.a == 0.0
    ensures UnpremultPixel(q) == Zero8
  {
  }

  /** A premultiplied 8-bit pixel has each colour channel between 0 and 255·alpha. */
  lemma PremultIsPremultiplied(p: Pixel8)
    ensures Premultiplied(PremultPixel(p))
  {
    var a := p.a as real;
    MulNonneg(255.0 - p.c0 as real, a);
    MulNonneg(255.0 - p.c1 as real, a);
    MulNonneg(255.0 - p.c2 as real, a);
    MulNonneg(p.c0 as real, a);
    MulNonneg(p.c1 as real, a);
    MulNonneg(p.c2 as real, a);
  }

  lemma QuotientInByteRange(c: real, a: real)
    requires 0.0 < a && 0.0 <= c <= 255.0 * a
    ensures 0.0 <= c / a <= 255.0
  {
  }

  /**
   * On a premultiplied pixel with non-zero alpha the 8-bit casts of
   * unpremultiply never wrap: each channel is the truncated quotient.
   */
  lemma UnpremultNoWrap(q: PixelF)
    requires Premultiplied(q) && q.a != 0.0
    ensures UnpremultPixel(q).c0 == Trunc(q.c0 / q.a)
    ensures UnpremultPixel(q).c1 == Trunc(q.c1 / q.a)
    ensures UnpremultPixel(q).c2 == Trunc(q.c2 / q.a)
    ensures UnpremultPixel(q).a == Trunc(q.a)
  {
    QuotientInByteRange(q.c0, q.a);
    QuotientInByteRange(q.c1, q.a);
    QuotientInByteRange(q.c2, q.a);
  }

  // ---------------------------------------------------------------------------
  // Whole-image specifications

  /** Every pixel of an 8-bit image premultiplied; the image keeps its shape. */
  function PremultImage(img: seq<seq<Pixel8>>): (r: seq<seq<PixelF>>)
    ensures |r| == |img|
    ensures forall y :: 0 <= y < |img| ==> |r[y]| == |img[y]|
    ensures forall y, x :: 0 <= y < |img| && 0 <= x < |img[y]| ==> r[y][x] == PremultPixel(img[y][x])
  {
    seq(|img|, y requires 0 <= y < |img| =>
      seq(|img[y]|, x requires 0 <= x < |img[y]| => PremultPixel(img[y][x])))
  }

  /** Every pixel of a float image unpremultiplied; the image keeps its shape. */
  function UnpremultImage(img: seq<seq<PixelF>>): (r: seq<seq<Pixel8>>)
    ensures |r| == |img|
    ensures forall y :: 0 <= y < |img| ==> |r[y]| == |img[y]|
    ensures forall y, x :: 0 <= y < |img| && 0 <= x < |img[y]| ==> r[y][x] == UnpremultPixel(img[y][x])
  {
    seq(|img|, y requires 0 <= y < |img| =>
      seq(|img[y]|, x requires 0 <= x < |img[y]| => UnpremultPixel(img[y][x])))
  }

  /**
   * Premultiplying and then unpremultiplying a whole image keeps every pixel
   * with non-zero alpha and clears every pixel with zero alpha; in particular
   * an image without transparent pixels comes back unchanged.
   */
  lemma ImageRoundTrip(img: seq<seq<Pixel8>>)
    ensures |UnpremultImage(PremultImage(img))| == |img|
    ensures forall y, x :: 0 <= y < |img| && 0 <= x < |img[y]| ==>
      UnpremultImage(PremultImage(img))[y][x] == ClearIfTransparent(img[y][x])
    ensures (forall y, x :: 0 <= y < |img| && 0 <= x < |img[y]| ==> img[y][x].a != 0) ==>
      UnpremultImage(PremultImage(img)) == img
  {
    var r := UnpremultImage(PremultImage(img));
    forall y, x | 0 <= y < |img| && 0 <= x < |img[y]|
      ensures r[y][x] == ClearIfTransparent(img[y][x])
    {
      PremultRoundTrip(img[y][x]);
    }
    if forall y, x :: 0 <= y < |img| && 0 <= x < |img[y]| ==> img[y][x].a != 0 {
      forall y | 0 <= y < |img|
        ensures r[y] == img[y]
      {
        assert |r[y]| == |img[y]|;
        assert forall x :: 0 <= x < |img[y]| ==> r[y][x] == img[y][x];
      }
    }
  }

  /** The premultiplied image of an 8-bit image is premultiplied throughout. */
  lemma PremultImageIsPremultiplied(img: seq<seq<Pixel8>>)
    ensures AllPremultiplied(PremultImage(img))
  {
    var r := PremultImage(img);
    forall y, x | 0 <= y < |r| && 0 <= x < |r[y]|
      ensures Premultiplied(r[y][x])
    {
      PremultIsPremultiplied(img[y][x]);
    }
  }

  // ---------------------------------------------------------------------------
  // The warps, pixel by pixel

  /** The CPU distortion centre: the geometric centre minus the centre offset. */
  function CpuCenter(size: Size2D, p: OpticsCompensationParameter): Vec2 {
    Vec2((size.w as real - 1.0) / 2.0 - p.centerPos.x, (size.h as real - 1.0) / 2.0 - p.centerPos.y)
  }

  /** The resampled input at the image of output pixel (x, y) under a coordinate mapping. */
  function MappedPixel(inImage: seq<seq<PixelF>>, size: Size2D, coordMap: CoordMap, center: Vec2, focal: real,
                       x: int, y: int): PixelF
    requires IsImage(inImage, size)
  {
    var m := coordMap(Vec2(x as real, y as real), center, focal);
    SamplePixel(inImage, size, m.x, m.y)
  }

  /** Output pixel (x, y) of the spool warp. */
  function SpoolPixel(inImage: seq<seq<PixelF>>, size: Size2D, p: OpticsCompensationParameter,
                      spoolMap: CoordMap, focalOf: real -> real, x: int, y: int): PixelF
    requires IsImage(inImage, size)
  {
    MappedPixel(inImage, size, spoolMap, CpuCenter(size, p), CalcFocalDistance(p, focalOf), x, y)
  }

  /** The four pixel corners (±0.5) of an output pixel, each mapped. */
  datatype Corners = Corners(lt: Vec2, rt: Vec2, lb: Vec2, rb: Vec2)

  function MappedCorners(coordMap: CoordMap, center: Vec2, focal: real, x: int, y: int): Corners {
    var cx, cy := x as real, y as real;
    Corners(coordMap(Vec2(cx - 0.5, cy - 0.5), center, focal),
            coordMap(Vec2(cx + 0.5, cy - 0.5), center, focal),
            coordMap(Vec2(cx - 0.5, cy + 0.5), center, focal),
            coordMap(Vec2(cx + 0.5, cy + 0.5), center, focal))
  }

  /** The k-th sub-pixel weight along an axis: (2k + 1) / (2·SAMPLE_NUM). */
  function SubSampleOffset(k: nat): real {
    (2 * k + 1) as real / (2 * SampleNum) as real
  }

  /** Sub-sample (i, j): resample at the corner interpolation for weights (offset i, offset j). */
  function SubSample(inImage: seq<seq<PixelF>>, size: Size2D, c: Corners, i: nat, j: nat): PixelF
    requires IsImage(inImage, size)
  {
    var s := CalcAASampleCoords(c.lt, c.rt, c.lb, c.rb, Vec2(SubSampleOffset(i), SubSampleOffset(j)));
    SamplePixel(inImage, size, s.x, s.y)
  }

  /** A grid of sub-samples: entry (i, j) is the sample in column i of row j. */
  type SampleGrid = (nat, nat) -> PixelF

  /** The sub-samples of one output pixel with mapped corners c. */
  function SubSamples(inImage: seq<seq<PixelF>>, size: Size2D, c: Corners): SampleGrid
    requires IsImage(inImage, size)
  {
    (i: nat, j: nat) => SubSample(inImage, size, c, i, j)
  }

  /** The first i samples of row j, added left to right. */
  function RowSum(g: SampleGrid, j: nat, i: nat): PixelF {
    if i == 0 then ZeroF else AddPixel(RowSum(g, j, i - 1), g(i - 1, j))
  }

  /** The first j rows of SAMPLE_NUM samples each, added row by row. */
  function GridSum(g: SampleGrid, j: nat): PixelF {
    if j == 0 then ZeroF else AddPixel(GridSum(g, j - 1), RowSum(g, j - 1, SampleNum))
  }

  /** The anti-aliased pixel: the SAMPLE_NUM² sub-samples averaged. */
  function AAPixel(inImage: seq<seq<PixelF>>, size: Size2D, c: Corners): PixelF
    requires IsImage(inImage, size)
  {
    DivPixel(GridSum(SubSamples(inImage, size, c), SampleNum), (SampleNum * SampleNum) as real)
  }

  /** The four-sample mean, summed row by row, left to right. */
  function Mean4(a: PixelF, b: PixelF, c: PixelF, d: PixelF): PixelF {
    ScalePixel(0.25, AddPixel(AddPixel(AddPixel(a, b), c), d))
  }

  /**
   * With SAMPLE_NUM = 2 the supersampling average is the mean of exactly four
   * samples, at weights {1/4, 3/4} × {1/4, 3/4} of the corner square.
   */
  lemma GridMeanOfFour(g: SampleGrid)
    ensures SubSampleOffset(0) == 0.25 && SubSampleOffset(1) == 0.75
    ensures DivPixel(GridSum(g, SampleNum), (SampleNum * SampleNum) as real) == Mean4(g(0, 0), g(1, 0), g(0, 1), g(1, 1))
  {
    assert GridSum(g, 2) == AddPixel(AddPixel(ZeroF, RowSum(g, 0, 2)), RowSum(g, 1, 2));
    assert RowSum(g, 0, 2) == AddPixel(AddPixel(ZeroF, g(0, 0)), g(1, 0));
    assert RowSum(g, 1, 2) == AddPixel(AddPixel(ZeroF, g(0, 1)), g(1, 1));
  }

  /** Every sub-sample of a premultiplied image is premultiplied. */
  lemma SubSamplesKeepPremultiplied(inImage: seq<seq<PixelF>>, size: Size2D, c: Corners)
    requires IsImage(inImage, size) && AllPremultiplied(inImage)
    ensures forall i: nat, j: nat :: Premultiplied(SubSamples(inImage, size, c)(i, j))
  {
    forall i: nat, j: nat
      ensures Premultiplied(SubSamples(inImage, size, c)(i, j))
    {
      var s := CalcAASampleCoords(c.lt, c.rt, c.lb, c.rb, Vec2(SubSampleOffset(i), SubSampleOffset(j)));
      SampleKeepsPremultiplied(inImage, size, s.x, s.y);
    }
  }

  /** A row sum of i premultiplied samples is premultiplied with alpha at most 255·i. */
  lemma {:induction false} RowSumWithin(g: SampleGrid, j: nat, i: nat)
    requires forall i': nat, j': nat :: Premultiplied(g(i', j'))
    ensures PremultipliedWithin(RowSum(g, j, i), 255.0 * i as real)
  {
    if i > 0 {
      RowSumWithin(g, j, i - 1);
      AddKeepsPremultiplied(RowSum(g, j, i - 1), g(i - 1, j), 255.0 * (i - 1) as real, 255.0);
    }
  }

  /** The sum over j rows of premultiplied samples is premultiplied with alpha at most 255·SAMPLE_NUM·j. */
  lemma {:induction false} GridSumWithin(g: SampleGrid, j: nat)
    requires forall i': nat, j': nat :: Premultiplied(g(i', j'))
    ensures PremultipliedWithin(GridSum(g, j), 255.0 * (j * SampleNum) as real)
  {
    if j > 0 {
      GridSumWithin(g, j - 1);
      RowSumWithin(g, j - 1, SampleNum);
      AddKeepsPremultiplied(GridSum(g, j - 1), RowSum(g, j - 1, SampleNum),
                            255.0 * ((j - 1) * SampleNum) as real, 255.0 * SampleNum as real);
    }
  }

  /** Division by n > 0 is scaling by 1/n. */
  lemma DivIsScale(p: PixelF, n: real)
    requires n > 0.0
    ensures DivPixel(p, n) == ScalePixel(1.0 / n, p)
  {
  }

  /** The anti-aliased pixel of a premultiplied image is premultiplied: it is a mean of premultiplied sub-samples. */
  lemma AAPixelKeepsPremultiplied(inImage: seq<seq<PixelF>>, size: Size2D, c: Corners)
    requires IsImage(inImage, size) && AllPremultiplied(inImage)
    ensures Premultiplied(AAPixel(inImage, size, c))
  {
    var g := SubSamples(inImage, size, c);
    SubSamplesKeepPremultiplied(inImage, size, c);
    GridSumWithin(g, SampleNum);
    DivIsScale(GridSum(g, SampleNum), 4.0);
    ScaleKeepsPremultiplied(0.25, GridSum(g, SampleNum), 1020.0);
  }

  /** Interpolating between four copies of one point gives that point, whatever the weights. */
  lemma InterpolatePoint(q: Vec2, alpha: Vec2)
    ensures CalcAASampleCoords(q, q, q, q, alpha) == q
  {
    assert LinearInterpolation2D(q, q, alpha.x) == q;
    assert LinearInterpolation2D(q, q, alpha.y) == q;
  }

  /** n copies of s added up, one at a time. */
  function Repeat(s: PixelF, n: nat): PixelF {
    if n == 0 then ZeroF else AddPixel(Repeat(s, n - 1), s)
  }

  lemma {:induction false} RepeatIsScale(s: PixelF, n: nat)
    ensures Repeat(s, n) == ScalePixel(n as real, s)
  {
    if n > 0 {
      RepeatIsScale(s, n - 1);
    }
  }

  lemma {:induction false} RepeatAdd(s: PixelF, a: nat, b: nat)
    ensures Repeat(s, a + b) == AddPixel(Repeat(s, a), Repeat(s, b))
  {
    if b > 0 {
      RepeatAdd(s, a, b - 1);
    }
  }

  lemma MulDivCancel(x: real, n: real)
    requires n != 0.0
    ensures (n * x) / n == x
  {
  }

  /** Averaging n copies of s gives s back. */
  lemma RepeatMean(s: PixelF, n: nat)
    requires n > 0
    ensures DivPixel(Repeat(s, n), n as real) == s
  {
    RepeatIsScale(s, n);
    DivScaleCancel(s, n as real);
  }

  lemma DivScaleCancel(s: PixelF, k: real)
    requires k != 0.0
    ensures DivPixel(ScalePixel(k, s), k) == s
  {
    MulDivCancel(s.c0, k);
    MulDivCancel(s.c1, k);
    MulDivCancel(s.c2, k);
    MulDivCancel(s.a, k);
  }

  /** A row sum over a constant grid is i copies of the constant. */
  lemma {:induction false} RowSumOfConstant(g: SampleGrid, s: PixelF, j: nat, i: nat)
    requires forall i': nat, j': nat :: g(i', j') == s
    ensures RowSum(g, j, i) == Repeat(s, i)
  {
    if i > 0 {
      RowSumOfConstant(g, s, j, i - 1);
    }
  }

  /** The sum over j rows of a constant grid is j·SAMPLE_NUM copies of the constant. */
  lemma {:induction false} GridSumOfConstant(g: SampleGrid, s: PixelF, j: nat)
    requires forall i': nat, j': nat :: g(i', j') == s
    ensures GridSum(g, j) == Repeat(s, j * SampleNum)
  {
    if j > 0 {
      GridSumOfConstant(g, s, j - 1);
      RowSumOfConstant(g, s, j - 1, SampleNum);
      RepeatAdd(s, (j - 1) * SampleNum, SampleNum);
      assert (j - 1) * SampleNum + SampleNum == j * SampleNum;
    }
  }

  /**
   * When all four mapped corners coincide, the anti-aliased pixel is the plain
   * resampled pixel at that point: supersampling a degenerate square changes
   * nothing.
   */
  lemma AAPixelOfPoint(inImage: seq<seq<PixelF>>, size: Size2D, q: Vec2)
    requires IsImage(inImage, size)
    ensures AAPixel(inImage, size, Corners(q, q, q, q)) == SamplePixel(inImage, size, q.x, q.y)
  {
    var g := SubSamples(inImage, size, Corners(q, q, q, q));
    var s := SamplePixel(inImage, size, q.x, q.y);
    forall i: nat, j: nat
      ensures g(i, j) == s
    {
      InterpolatePoint(q, Vec2(SubSampleOffset(i), SubSampleOffset(j)));
    }
    GridSumOfConstant(g, s, SampleNum);
    RepeatMean(s, SampleNum * SampleNum);
  }


  /** Output pixel (x, y) of the barrel warp, plain or anti-aliased by the parameter's flag. */
  function BarrelPixel(inImage: seq<seq<PixelF>>, size: Size2D, p: OpticsCompensationParameter,
                       barrelMap: CoordMap, focalOf: real -> real, x: int, y: int): PixelF
    requires IsImage(inImage, size)
  {
    var center, focal := CpuCenter(size, p), CalcFocalDistance(p, focalOf);
    if p.antiAliasing then
      AAPixel(inImage, size, MappedCorners(barrelMap, center, focal, x, y))
    else
      MappedPixel(inImage, size, barrelMap, center, focal, x, y)
  }

  /** Warping a premultiplied image keeps every spool output pixel premultiplied. */
  lemma SpoolKeepsPremultiplied(inImage: seq<seq<PixelF>>, size: Size2D, p: OpticsCompensationParameter,
                                spoolMap: CoordMap, focalOf: real -> real, x: int, y: int)
    requires IsImage(inImage, size) && AllPremultiplied(inImage)
    ensures Premultiplied(SpoolPixel(inImage, size, p, spoolMap, focalOf, x, y))
  {
    var m := spoolMap(Vec2(x as real, y as real), CpuCenter(size, p), CalcFocalDistance(p, focalOf));
    SampleKeepsPremultiplied(inImage, size, m.x, m.y);
  }

  /** Warping a premultiplied image keeps every barrel output pixel premultiplied, with or without supersampling. */
  lemma BarrelKeepsPremultiplied(inImage: seq<seq<PixelF>>, size: Size2D, p: OpticsCompensationParameter,
                                 barrelMap: CoordMap, focalOf: real -> real, x: int, y: int)
    requires IsImage(inImage, size) && AllPremultiplied(inImage)
    ensures Premultiplied(BarrelPixel(inImage, size, p, barrelMap, focalOf, x, y))
  {
    var center, focal := CpuCenter(size, p), CalcFocalDistance(p, focalOf);
    if p.antiAliasing {
      AAPixelKeepsPremultiplied(inImage, size, MappedCorners(barrelMap, center, focal, x, y));
    } else {
      var m := barrelMap(Vec2(x as real, y as real), center, focal);
      SampleKeepsPremultiplied(inImage, size, m.x, m.y);
    }
  }

  // ---------------------------------------------------------------------------
  // The kernels

  /**
   * `PremultKernel`: slot y·w + x of the float output holds the premultiplied
   * input pixel (x, y).
   */
  method PremultKernel(inImage: seq<seq<Pixel8>>, outImage: array<PixelF>, size: Size2D)
    requires IsImage(inImage, size) && outImage.Length == size.w * size.h
    modifies outImage
    ensures forall y, x :: 0 <= y < size.h && 0 <= x < size.w ==>
      outImage[PixelIndex(size, x, y)] == PremultPixel(inImage[y][x])
    ensures Rows(outImage[..], size) == PremultImage(inImage)
  {
    for y := 0 to size.h
      invariant forall y', x' :: 0 <= y' < y && 0 <= x' < size.w ==>
        outImage[PixelIndex(size, x', y')] == PremultPixel(inImage[y'][x'])
    {
      for x := 0 to size.w
        invariant forall y', x' :: 0 <= y' < y && 0 <= x' < size.w ==>
          outImage[PixelIndex(size, x', y')] == PremultPixel(inImage[y'][x'])
        invariant forall x' :: 0 <= x' < x ==>
          outImage[PixelIndex(size, x', y)] == PremultPixel(inImage[y][x'])
      {
        var inPixel := SamplePixelAt(inImage, size, x, y, Zero8);
        var alpha := inPixel.a as real;
        outImage[PixelIndex(size, x, y)] := PixelF(inPixel.c0 as real * alpha, inPixel.c1 as real * alpha,
                                                   inPixel.c2 as real * alpha, alpha);
      }
    }
    SameImage(Rows(outImage[..], size), PremultImage(inImage), size);
  }

  /**
   * `UnpremultKernel`: slot y·w + x of the 8-bit output holds the
   * unpremultiplied input pixel (x, y).
   */
  method UnpremultKernel(inImage: seq<seq<PixelF>>, outImage: array<Pixel8>, size: Size2D)
    requires IsImage(inImage, size) && outImage.Length == size.w * size.h
    modifies outImage
    ensures forall y, x :: 0 <= y < size.h && 0 <= x < size.w ==>
      outImage[PixelIndex(size, x, y)] == UnpremultPixel(inImage[y][x])
    ensures Rows(outImage[..], size) == UnpremultImage(inImage)
  {
    for y := 0 to size.h
      invariant forall y', x' :: 0 <= y' < y && 0 <= x' < size.w ==>
        outImage[PixelIndex(size, x', y')] == UnpremultPixel(inImage[y'][x'])
    {
      for x := 0 to size.w
        invariant forall y', x' :: 0 <= y' < y && 0 <= x' < size.w ==>
          outImage[PixelIndex(size, x', y')] == UnpremultPixel(inImage[y'][x'])
        invariant forall x' :: 0 <= x' < x ==>
          outImage[PixelIndex(size, x', y)] == UnpremultPixel(inImage[y][x'])
      {
        var inPixel := SamplePixelAt(inImage, size, x, y, ZeroF);
        var alpha := inPixel.a;
        if alpha != 0.0 {
          outImage[PixelIndex(size, x, y)] := Pixel8(ToByte(inPixel.c0 / alpha), ToByte(inPixel.c1 / alpha),
                                                     ToByte(inPixel.c2 / alpha), ToByte(alpha));
        } else {
          outImage[PixelIndex(size, x, y)] := Pixel8(0, 0, 0, 0);
        }
      }
    }
    SameImage(Rows(outImage[..], size), UnpremultImage(inImage), size);
  }

  /**
   * The round trip over the kernels' buffers: when `mid` holds what
   * `PremultKernel` writes for `img` and `out` what `UnpremultKernel` writes
   * for `mid` read as rows, every slot of `out` holds its input pixel, with
   * transparent pixels cleared.
   */
  lemma KernelRoundTrip(img: seq<seq<Pixel8>>, mid: seq<PixelF>, out: seq<Pixel8>, size: Size2D)
    requires IsImage(img, size) && |mid| == size.w * size.h && |out| == size.w * size.h
    requires Rows(mid, size) == PremultImage(img)
    requires Rows(out, size) == UnpremultImage(Rows(mid, size))
    ensures forall y, x :: 0 <= y < size.h && 0 <= x < size.w ==>
      out[PixelIndex(size, x, y)] == ClearIfTransparent(img[y][x])
  {
    ImageRoundTrip(img);
    forall y, x | 0 <= y < size.h && 0 <= x < size.w
      ensures out[PixelIndex(size, x, y)] == ClearIfTransparent(img[y][x])
    {
      assert out[PixelIndex(size, x, y)] == Rows(out, size)[y][x];
    }
  }

  /**
   * `SpoolCPUKernel`: slot y·w + x holds the input resampled at the spool
   * image of (x, y).
   */
  method SpoolCPUKernel(inImage: seq<seq<PixelF>>, outImage: array<PixelF>, size: Size2D,
                        p: OpticsCompensationParameter, spoolMap: CoordMap, focalOf: real -> real)
    requires IsImage(inImage, size) && outImage.Length == size.w * size.h
    modifies outImage
    ensures forall y, x :: 0 <= y < size.h && 0 <= x < size.w ==>
      outImage[PixelIndex(size, x, y)] == SpoolPixel(inImage, size, p, spoolMap, focalOf, x, y)
  {
    var centerCoord := CpuCenter(size, p);
    for y := 0 to size.h
      invariant forall y', x' :: 0 <= y' < y && 0 <= x' < size.w ==>
        outImage[PixelIndex(size, x', y')] == SpoolPixel(inImage, size, p, spoolMap, focalOf, x', y')
    {
      for x := 0 to size.w
        invariant forall y', x' :: 0 <= y' < y && 0 <= x' < size.w ==>
          outImage[PixelIndex(size, x', y')] == SpoolPixel(inImage, size, p, spoolMap, focalOf, x', y')
        invariant forall x' :: 0 <= x' < x ==>
          outImage[PixelIndex(size, x', y)] == SpoolPixel(inImage, size, p, spoolMap, focalOf, x', y)
      {
        var coord := Vec2(x as real, y as real);
        var samplingCoord := spoolMap(coord, centerCoord, CalcFocalDistance(p, focalOf));
        var pixel := SamplePixel(inImage, size, samplingCoord.x, samplingCoord.y);
        outImage[PixelIndex(size, x, y)] := pixel;
      }
    }
  }

  /** Stepping a sub-pixel weight by 1/SAMPLE_NUM moves to the next one; the weights below 1 are those with k < SAMPLE_NUM. */
  lemma SubSampleStep(k: nat)
    ensures SubSampleOffset(k) + 1.0 / SampleNum as real == SubSampleOffset(k + 1)
    ensures SubSampleOffset(k) < 1.0 <==> k < SampleNum
  {
  }

  /**
   * The supersampling loops of `BarrelCPUKernel`: sy and sx step from
   * 1/(2·SAMPLE_NUM) by 1/SAMPLE_NUM while below 1, each sub-sample is added
   * to the accumulator and counted, and the sum is divided by the count.
   * The ghost grid g names the sub-samples (the caller passes SubSamples), so
   * that the loop proofs need not unfold how each one is sampled.
   */
  method AntiAliasedPixel(inImage: seq<seq<PixelF>>, size: Size2D, c: Corners, ghost g: SampleGrid) returns (pixel: PixelF)
    requires IsImage(inImage, size)
    requires forall i: nat, j: nat :: g(i, j) == SubSample(inImage, size, c, i, j)
    ensures pixel == DivPixel(GridSum(g, SampleNum), (SampleNum * SampleNum) as real)
  {
    pixel := ZeroF;
    var sampledNum := 0;
    var sy := 1.0 / SampleNum as real / 2.0;
    ghost var j: nat := 0;
    while sy < 1.0
      invariant j <= SampleNum
      invariant sy == SubSampleOffset(j)
      invariant sampledNum == j * SampleNum
      invariant pixel == GridSum(g, j)
      decreases SampleNum - j
    {
      SubSampleStep(j);
      ghost var rowStart := pixel;
      var sx := 1.0 / SampleNum as real / 2.0;
      ghost var i: nat := 0;
      while sx < 1.0
        invariant i <= SampleNum
        invariant sx == SubSampleOffset(i)
        invariant sampledNum == j * SampleNum + i
        invariant pixel == AddPixel(rowStart, RowSum(g, j, i))
        decreases SampleNum - i
      {
        SubSampleStep(i);
        var alpha := Vec2(sx, sy);
        var samplingCoord := CalcAASampleCoords(c.lt, c.rt, c.lb, c.rb, alpha);
        var sampledPixel := SamplePixel(inImage, size, samplingCoord.x, samplingCoord.y);
        assert sampledPixel == g(i, j);
        AddAssociates(rowStart, RowSum(g, j, i), sampledPixel);
        pixel := AddPixel(pixel, sampledPixel);
        sampledNum := sampledNum + 1;
        sx := sx + 1.0 / SampleNum as real;
        i := i + 1;
      }
      SubSampleStep(i);
      assert i == SampleNum;
      sy := sy + 1.0 / SampleNum as real;
      j := j + 1;
    }
    SubSampleStep(j);
    assert j == SampleNum && sampledNum == SampleNum * SampleNum;
    pixel := DivPixel(pixel, sampledNum as real);
  }

  lemma AddAssociates(p: PixelF, q: PixelF, r: PixelF)
    ensures AddPixel(AddPixel(p, q), r) == AddPixel(p, AddPixel(q, r))
  {
  }

  /**
   * Some w×h image holding the barrel pixel at every (x, y). The kernel's loop
   * invariants speak of its slots, so that an output pixel's definition is
   * unfolded only where that pixel is written.
   */
  lemma BarrelTarget(inImage: seq<seq<PixelF>>, size: Size2D, p: OpticsCompensationParameter,
                     barrelMap: CoordMap, focalOf: real -> real) returns (target: seq<seq<PixelF>>)
    requires IsImage(inImage, size)
    ensures IsImage(target, size)
    ensures forall y, x {:trigger BarrelPixel(inImage, size, p, barrelMap, focalOf, x, y)} ::
      0 <= y < size.h && 0 <= x < size.w ==> target[y][x] == BarrelPixel(inImage, size, p, barrelMap, focalOf, x, y)
  {
    target := seq(size.h, y requires 0 <= y < size.h =>
      seq(size.w, x requires 0 <= x < size.w => BarrelPixel(inImage, size, p, barrelMap, focalOf, x, y)));
  }

  /**
   * `BarrelCPUKernel`: with amount 1 it returns before writing anything;
   * otherwise slot y·w + x holds the barrel output pixel, supersampled when
   * anti-aliasing is on.
   */
  method BarrelCPUKernel(inImage: seq<seq<PixelF>>, outImage: array<PixelF>, size: Size2D,
                         p: OpticsCompensationParameter, barrelMap: CoordMap, focalOf: real -> real)
    requires IsImage(inImage, size) && outImage.Length == size.w * size.h
    modifies outImage
    ensures p.amount == 1.0 ==> outImage[..] == old(outImage[..])
    ensures p.amount != 1.0 ==> forall y, x :: 0 <= y < size.h && 0 <= x < size.w ==>
      outImage[PixelIndex(size, x, y)] == BarrelPixel(inImage, size, p, barrelMap, focalOf, x, y)
  {
    if p.amount == 1.0 {
      return;
    }
    ghost var target := BarrelTarget(inImage, size, p, barrelMap, focalOf);
    var centerCoord := CpuCenter(size, p);
    var focalDistance := CalcFocalDistance(p, focalOf);
    for y := 0 to size.h
      invariant forall y', x' :: 0 <= y' < y && 0 <= x' < size.w ==> outImage[PixelIndex(size, x', y')] == target[y'][x']
    {
      for x := 0 to size.w
        invariant forall y', x' :: 0 <= y' < y && 0 <= x' < size.w ==> outImage[PixelIndex(size, x', y')] == target[y'][x']
        invariant forall x' :: 0 <= x' < x ==> outImage[PixelIndex(size, x', y)] == target[y][x']
      {
        var coord := Vec2(x as real, y as real);
        var slot := PixelIndex(size, x, y);
        if p.antiAliasing {
          var coordLt := barrelMap(Vec2(coord.x - 0.5, coord.y - 0.5), centerCoord, focalDistance);
          var coordRt := barrelMap(Vec2(coord.x + 0.5, coord.y - 0.5), centerCoord, focalDistance);
          var coordLb := barrelMap(Vec2(coord.x - 0.5, coord.y + 0.5), centerCoord, focalDistance);
          var coordRb := barrelMap(Vec2(coord.x + 0.5, coord.y + 0.5), centerCoord, focalDistance);
          var corners := Corners(coordLt, coordRt, coordLb, coordRb);
          assert corners == MappedCorners(barrelMap, centerCoord, focalDistance, x, y);
          var pixel := AntiAliasedPixel(inImage, size, corners, SubSamples(inImage, size, corners));
          assert pixel == BarrelPixel(inImage, size, p, barrelMap, focalOf, x, y);
          outImage[slot] := pixel;
        } else {
          var samplingCoord := barrelMap(coord, centerCoord, CalcFocalDistance(p, focalOf));
          var pixel := SamplePixel(inImage, size, samplingCoord.x, samplingCoord.y);
          assert pixel == BarrelPixel(inImage, size, p, barrelMap, focalOf, x, y);
          outImage[slot] := pixel;
        }
      }
    }
    forall y, x | 0 <= y < size.h && 0 <= x < size.w
      ensures outImage[PixelIndex(size, x, y)] == BarrelPixel(inImage, size, p, barrelMap, focalOf, x, y)
    {
      assert outImage[PixelIndex(size, x, y)] == target[y][x];
    }
  }
}
