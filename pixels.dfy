/**
 * Value types shared by the CPU kernels, the accelerator dispatch layer and the
 * plugin entry point: image dimensions, 2-D float coordinates, 8-bit and float
 * RGBA pixels, and the truncating float-to-integer casts of the C++ code.
 */
module Pixels {

  /** An 8-bit unsigned channel (`uchar`). */
  type byte = x: int | 0 <= x < 256

  /** Image dimensions (`aut::Size2D`); negative sizes are not modelled. */
  datatype Size2D = Size2D(w: nat, h: nat)

  /** A 2-D float coordinate (`glm::vec2`, `cl_float2`), unclamped. */
  datatype Vec2 = Vec2(x: real, y: real)

  function AddVec(a: Vec2, b: Vec2): Vec2 { Vec2(a.x + b.x, a.y + b.y) }

  function SubVec(a: Vec2, b: Vec2): Vec2 { Vec2(a.x - b.x, a.y - b.y) }

  function ScaleVec(k: real, a: Vec2): Vec2 { Vec2(k * a.x, k * a.y) }

  /** An 8-bit RGBA pixel (`cv::Vec4b`); channel 3 is alpha. */
  datatype Pixel8 = Pixel8(c0: byte, c1: byte, c2: byte, a: byte)

  /** A float RGBA pixel (`cv::Vec4f`); channel 3 is alpha. */
  datatype PixelF = PixelF(c0: real, c1: real, c2: real, a: real)

  const Zero8: Pixel8 := Pixel8(0, 0, 0, 0)
  const ZeroF: PixelF := PixelF(0.0, 0.0, 0.0, 0.0)

  function AddPixel(p: PixelF, q: PixelF): PixelF {
    PixelF(p.c0 + q.c0, p.c1 + q.c1, p.c2 + q.c2, p.a + q.a)
  }

  function ScalePixel(k: real, p: PixelF): PixelF {
    PixelF(k * p.c0, k * p.c1, k * p.c2, k * p.a)
  }

  /** Channel-wise division by a scalar (`cv::Vec4f::operator/=`). */
  function DivPixel(p: PixelF, n: real): PixelF
    requires n != 0.0
  {
    PixelF(p.c0 / n, p.c1 / n, p.c2 / n, p.a / n)
  }

  /**
   * Float-to-integer conversion, truncating toward zero: the first step of
   * `static_cast<uchar>` (`ToByte`) and of `std::fmod` (`FModOne`).
   */
  function Trunc(v: real): int {
    if v >= 0.0 then v.Floor else -((-v).Floor)
  }

  /** Truncation rounds toward zero: down for v >= 0, up for v < 0, by less than one. */
  lemma TruncTowardZero(v: real)
    ensures v >= 0.0 ==> 0 <= Trunc(v) && Trunc(v) as real <= v < Trunc(v) as real + 1.0
    ensures v < 0.0 ==> Trunc(v) <= 0 && Trunc(v) as real - 1.0 < v <= Trunc(v) as real
  {
  }

  /**
   * `static_cast<uchar>` of a float: truncation toward zero, then the low
   * eight bits (the C++ conversion is undefined outside 0..255; the model
   * wraps).
   */
  function ToByte(v: real): (b: byte)
    ensures 0.0 <= v < 256.0 ==> b as real <= v < b as real + 1.0
  {
    TruncTowardZero(v);
    Trunc(v) % 256
  }

  /**
   * A w×h image read row by row (`cv::Mat::ptr(y)[x]`): h rows of w pixels
   * each.
   */
  predicate IsImage<T>(img: seq<seq<T>>, size: Size2D) {
    |img| == size.h && forall y :: 0 <= y < |img| ==> |img[y]| == size.w
  }

  /** The pixel (x, y) lies in the w×h grid. */
  predicate InImage(size: Size2D, x: int, y: int) {
    0 <= x < size.w && 0 <= y < size.h
  }

  /** Row-major slot of pixel (x, y): `y * w + x`. */
  function PixelIndex(size: Size2D, x: int, y: int): (i: nat)
    requires InImage(size, x, y)
    ensures i < size.w * size.h
    ensures i % size.w == x && i / size.w == y
  {
    RowMajorSlot(size.w, size.h, x, y);
    y * size.w + x
  }

  lemma RowMajorSlot(w: nat, h: nat, x: nat, y: nat)
    requires x < w && y < h
    ensures y * w + x < w * h
    ensures (y * w + x) % w == x && (y * w + x) / w == y
  {
    assert y * w + x < (y + 1) * w <= h * w;
    DivModUnique(y * w + x, w, y, x);
  }

  lemma DivModUnique(n: int, d: int, q: int, r: int)
    requires 0 <= r < d && n == q * d + r
    ensures n / d == q && n % d == r
  {
    var q', r' := n / d, n % d;
    assert n == q' * d + r' && 0 <= r' < d;
    if q' < q {
      MulMonotone(q' + 1, q, d);
    } else if q' > q {
      MulMonotone(q + 1, q', d);
    }
  }

  lemma MulMonotone(a: int, b: int, d: nat)
    requires a <= b
    ensures a * d <= b * d
  {
    assert b * d - a * d == (b - a) * d;
  }

  /** A flat row-major buffer read as rows: row y, column x is slot y·w + x. */
  function Rows<T>(buf: seq<T>, size: Size2D): (img: seq<seq<T>>)
    requires |buf| == size.w * size.h
    ensures IsImage(img, size)
    ensures forall y, x :: 0 <= y < size.h && 0 <= x < size.w ==> img[y][x] == buf[PixelIndex(size, x, y)]
  {
    seq(size.h, y requires 0 <= y < size.h =>
      seq(size.w, x requires 0 <= x < size.w => buf[PixelIndex(size, x, y)]))
  }

  /** Two w×h images with the same pixel at every (x, y) are equal. */
  lemma SameImage<T>(a: seq<seq<T>>, b: seq<seq<T>>, size: Size2D)
    requires IsImage(a, size) && IsImage(b, size)
    requires forall y, x :: 0 <= y < size.h && 0 <= x < size.w ==> a[y][x] == b[y][x]
    ensures a == b
  {
    forall y | 0 <= y < size.h
      ensures a[y] == b[y]
    {
      assert forall x :: 0 <= x < size.w ==> a[y][x] == b[y][x];
    }
  }

  /** The pixel coordinates of row-major slot i. */
  lemma SlotCoordinates(size: Size2D, i: nat)
    requires i < size.w * size.h
    ensures size.w > 0
    ensures InImage(size, i % size.w, i / size.w)
    ensures PixelIndex(size, i % size.w, i / size.w) == i
  {
    var w := size.w;
    assert w > 0;
    var q, r := i / w, i % w;
    assert i == q * w + r;
  }
}
