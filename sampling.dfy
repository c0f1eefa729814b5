/**
 * The sampling and interpolation helpers of the CPU backend: integer-lattice
 * sampling with a transparent border, bilinear resampling at a real
 * coordinate, and the corner interpolation used by the anti-aliased path.
 */
module Sampling {
  import opened Pixels

  /**
   * The signature of `CalcSpoolCoord` and `CalcBarrelCoord`: (output coordinate,
   * centre, focal distance) to sampling coordinate. Their arctangent/tangent
   * bodies are not modelled; the kernels take the mapping as a parameter.
   */
  type CoordMap = (Vec2, Vec2, real) -> Vec2

  /**
   * `SamplingPixel` at integer coordinates: the stored pixel at row y, column
   * x, or `zero` (all channels 0) anywhere outside the w×h grid.
   */
  function SamplePixelAt<T>(img: seq<seq<T>>, size: Size2D, x: int, y: int, zero: T): T
    requires IsImage(img, size)
  {
    if x < 0 || x >= size.w || y < 0 || y >= size.h then
      zero
    else
      img[y][x]
  }

  /** The integer sampler reads the stored pixel exactly inside the grid and `zero` everywhere else. */
  lemma SamplePixelAtBorder<T>(img: seq<seq<T>>, size: Size2D, x: int, y: int, zero: T)
    requires IsImage(img, size)
    ensures !InImage(size, x, y) ==> SamplePixelAt(img, size, x, y, zero) == zero
    ensures InImage(size, x, y) ==> SamplePixelAt(img, size, x, y, zero) == img[y][x]
  {
  }

  function Floor(v: real): int { v.Floor }

  /** `std::ceil` of a float, as an integer. */
  function Ceil(v: real): int {
    -((-v).Floor)
  }

  predicate IsIntegral(v: real) { v.Floor as real == v }

  function Abs(v: real): real { if v < 0.0 then -v else v }

  /** `std::fmod(v, 1.f)`: the remainder of truncating division, with the sign of v. */
  function FModOne(v: real): real {
    v - Trunc(v) as real
  }

  /** The remainder lies strictly between −1 and 1 and never has the opposite sign to v. */
  lemma FModOneRange(v: real)
    ensures -1.0 < FModOne(v) < 1.0
    ensures v >= 0.0 ==> FModOne(v) >= 0.0
    ensures v <= 0.0 ==> FModOne(v) <= 0.0
  {
    TruncTowardZero(v);
  }

  /**
   * The fractional offset `dx` (or `dy`) of the real-coordinate sampler:
   * `fmod(v, 1)` for v >= 0 and `1 - |fmod(v, 1)|` for v < 0. For a negative
   * integer it is 1, not 0.
   */
  function Offset(v: real): real {
    if v >= 0.0 then FModOne(v) else 1.0 - Abs(FModOne(v))
  }

  /**
   * The offset is the distance from the floor, in [0, 1], except at a
   * negative integer, where it is 1 rather than 0.
   */
  lemma OffsetFraction(v: real)
    ensures 0.0 <= Offset(v) <= 1.0
    ensures v >= 0.0 ==> Offset(v) == v - Floor(v) as real
    ensures v < 0.0 && !IsIntegral(v) ==> Offset(v) == v - Floor(v) as real
    ensures v < 0.0 && IsIntegral(v) ==> Offset(v) == 1.0
  {
    FloorCeil(v);
    TruncTowardZero(v);
    if v < 0.0 {
      assert Trunc(v) == Ceil(v);
    }
  }

  /** The weighted sum of the four lattice neighbours, in the order the source adds them. */
  function Bilinear(dx: real, dy: real, plt: PixelF, prt: PixelF, plb: PixelF, prb: PixelF): PixelF {
    AddPixel(
      AddPixel(
        AddPixel(ScalePixel((1.0 - dx) * (1.0 - dy), plt), ScalePixel(dx * (1.0 - dy), prt)),
        ScalePixel((1.0 - dx) * dy, plb)),
      ScalePixel(dx * dy, prb))
  }

  /**
   * `SamplingPixel` at real coordinates: a bilinear blend of the neighbours
   * (⌊x⌋,⌊y⌋), (⌈x⌉,⌊y⌋), (⌊x⌋,⌈y⌉), (⌈x⌉,⌈y⌉), each read with the
   * zero border.
   */
  function SamplePixel(img: seq<seq<PixelF>>, size: Size2D, x: real, y: real): PixelF
    requires IsImage(img, size)
  {
    var dx := Offset(x);
    var dy := Offset(y);
    var fx, fy, cx, cy := Floor(x), Floor(y), Ceil(x), Ceil(y);
    Bilinear(dx, dy,
             SamplePixelAt(img, size, fx, fy, ZeroF), SamplePixelAt(img, size, cx, fy, ZeroF),
             SamplePixelAt(img, size, fx, cy, ZeroF), SamplePixelAt(img, size, cx, cy, ZeroF))
  }

  lemma UnitProduct(a: real, b: real)
    requires 0.0 <= a <= 1.0 && 0.0 <= b <= 1.0
    ensures 0.0 <= a * b <= 1.0
  {
    assert a * b <= a * 1.0 by {
      assert a * (1.0 - b) >= 0.0;
    }
  }

  /** For offsets in [0, 1], the four bilinear weights lie in [0, 1] and sum to 1. */
  lemma BilinearWeights(dx: real, dy: real)
    requires 0.0 <= dx <= 1.0 && 0.0 <= dy <= 1.0
    ensures 0.0 <= (1.0 - dx) * (1.0 - dy) <= 1.0
    ensures 0.0 <= dx * (1.0 - dy) <= 1.0
    ensures 0.0 <= (1.0 - dx) * dy <= 1.0
    ensures 0.0 <= dx * dy <= 1.0
    ensures (1.0 - dx) * (1.0 - dy) + dx * (1.0 - dy) + (1.0 - dx) * dy + dx * dy == 1.0
  {
    UnitProduct(1.0 - dx, 1.0 - dy);
    UnitProduct(dx, 1.0 - dy);
    UnitProduct(1.0 - dx, dy);
    UnitProduct(dx, dy);
  }

  /** The sampler's floor/ceil pair coincide exactly at integers, and differ by one elsewhere. */
  lemma FloorCeil(v: real)
    ensures IsIntegral(v) ==> Floor(v) == Ceil(v) && Floor(v) as real == v
    ensures !IsIntegral(v) ==> Ceil(v) == Floor(v) + 1
  {
  }

  /** A blend whose weights put all their mass on neighbours that are equal returns that neighbour. */
  lemma BilinearAtCorner(dx: real, dy: real, p: PixelF, q: PixelF)
    requires dx == 0.0 || dx == 1.0
    requires dy == 0.0 || dy == 1.0
    requires q == p
    ensures Bilinear(dx, dy, p, q, q, q) == p
  {
  }

  /**
   * At an integer coordinate (of either sign) the real sampler returns exactly
   * the integer sample: the offsets are 0 or 1 and floor equals ceil.
   */
  lemma SampleAtLattice(img: seq<seq<PixelF>>, size: Size2D, x: int, y: int)
    requires IsImage(img, size)
    ensures SamplePixel(img, size, x as real, y as real) == SamplePixelAt(img, size, x, y, ZeroF)
  {
    var xr, yr := x as real, y as real;
    FloorCeil(xr);
    FloorCeil(yr);
    assert Floor(xr) == x && Ceil(xr) == x;
    assert Floor(yr) == y && Ceil(yr) == y;
    OffsetFraction(xr);
    OffsetFraction(yr);
    var p := SamplePixelAt(img, size, x, y, ZeroF);
    BilinearAtCorner(Offset(xr), Offset(yr), p, p);
  }

  /** If all four lattice neighbours are outside the grid, the sample is fully transparent. */
  lemma SampleOutsideIsZero(img: seq<seq<PixelF>>, size: Size2D, x: real, y: real)
    requires IsImage(img, size)
    requires !InImage(size, Floor(x), Floor(y)) && !InImage(size, Ceil(x), Floor(y))
    requires !InImage(size, Floor(x), Ceil(y)) && !InImage(size, Ceil(x), Ceil(y))
    ensures SamplePixel(img, size, x, y) == ZeroF
  {
  }

  /** Sampling at (−1, −1) gives (0, 0, 0, 0) on every image. */
  lemma SampleAtMinusOne(img: seq<seq<PixelF>>, size: Size2D)
    requires IsImage(img, size)
    ensures SamplePixel(img, size, -1.0, -1.0) == ZeroF
  {
    SampleAtLattice(img, size, -1, -1);
  }

  /**
   * A premultiplied pixel whose alpha is at most `m`: each colour channel lies
   * between 0 and 255 times alpha.
   */
  predicate PremultipliedWithin(p: PixelF, m: real) {
    0.0 <= p.a <= m &&
    0.0 <= p.c0 <= 255.0 * p.a && 0.0 <= p.c1 <= 255.0 * p.a && 0.0 <= p.c2 <= 255.0 * p.a
  }

  /** What the premultiply kernel produces from an 8-bit pixel, and what blending keeps. */
  predicate Premultiplied(p: PixelF) { PremultipliedWithin(p, 255.0) }

  predicate AllPremultiplied(img: seq<seq<PixelF>>) {
    forall y, x :: 0 <= y < |img| && 0 <= x < |img[y]| ==> Premultiplied(img[y][x])
  }

  lemma ScaleKeepsPremultiplied(k: real, p: PixelF, m: real)
    requires k >= 0.0 && PremultipliedWithin(p, m)
    ensures PremultipliedWithin(ScalePixel(k, p), k * m)
  {
    var q := ScalePixel(k, p);
    MulNonneg(k, p.a);
    MulNonneg(k, p.c0);
    MulNonneg(k, p.c1);
    MulNonneg(k, p.c2);
    MulNonneg(k, m - p.a);
    assert k * (m - p.a) == k * m - q.a;
    MulNonneg(k, 255.0 * p.a - p.c0);
    assert k * (255.0 * p.a - p.c0) == 255.0 * q.a - q.c0;
    MulNonneg(k, 255.0 * p.a - p.c1);
    assert k * (255.0 * p.a - p.c1) == 255.0 * q.a - q.c1;
    MulNonneg(k, 255.0 * p.a - p.c2);
    assert k * (255.0 * p.a - p.c2) == 255.0 * q.a - q.c2;
  }

  lemma MulNonneg(x: real, y: real)
    requires x >= 0.0 && y >= 0.0
    ensures x * y >= 0.0
  {
  }

  lemma AddKeepsPremultiplied(p: PixelF, q: PixelF, m: real, n: real)
    requires PremultipliedWithin(p, m) && PremultipliedWithin(q, n)
    ensures PremultipliedWithin(AddPixel(p, q), m + n)
  {
  }

  lemma BilinearKeepsPremultiplied(dx: real, dy: real, plt: PixelF, prt: PixelF, plb: PixelF, prb: PixelF)
    requires 0.0 <= dx <= 1.0 && 0.0 <= dy <= 1.0
    requires Premultiplied(plt) && Premultiplied(prt) && Premultiplied(plb) && Premultiplied(prb)
    ensures Premultiplied(Bilinear(dx, dy, plt, prt, plb, prb))
  {
    BilinearWeights(dx, dy);
    var w0, w1, w2, w3 := (1.0 - dx) * (1.0 - dy), dx * (1.0 - dy), (1.0 - dx) * dy, dx * dy;
    ScaleKeepsPremultiplied(w0, plt, 255.0);
    ScaleKeepsPremultiplied(w1, prt, 255.0);
    ScaleKeepsPremultiplied(w2, plb, 255.0);
    ScaleKeepsPremultiplied(w3, prb, 255.0);
    AddKeepsPremultiplied(ScalePixel(w0, plt), ScalePixel(w1, prt), w0 * 255.0, w1 * 255.0);
    var s01 := AddPixel(ScalePixel(w0, plt), ScalePixel(w1, prt));
    AddKeepsPremultiplied(s01, ScalePixel(w2, plb), w0 * 255.0 + w1 * 255.0, w2 * 255.0);
    var s012 := AddPixel(s01, ScalePixel(w2, plb));
    AddKeepsPremultiplied(s012, ScalePixel(w3, prb), w0 * 255.0 + w1 * 255.0 + w2 * 255.0, w3 * 255.0);
    assert w0 * 255.0 + w1 * 255.0 + w2 * 255.0 + w3 * 255.0 == 255.0;
  }

  /**
   * Resampling a premultiplied image yields a premultiplied pixel: the zero
   * border is premultiplied and the weights are a convex combination.
   */
  lemma SampleKeepsPremultiplied(img: seq<seq<PixelF>>, size: Size2D, x: real, y: real)
    requires IsImage(img, size)
    requires AllPremultiplied(img)
    ensures Premultiplied(SamplePixel(img, size, x, y))
  {
    var fx, fy, cx, cy := Floor(x), Floor(y), Ceil(x), Ceil(y);
    OffsetFraction(x);
    OffsetFraction(y);
    BilinearKeepsPremultiplied(Offset(x), Offset(y),
      SamplePixelAt(img, size, fx, fy, ZeroF), SamplePixelAt(img, size, cx, fy, ZeroF),
      SamplePixelAt(img, size, fx, cy, ZeroF), SamplePixelAt(img, size, cx, cy, ZeroF));
  }

  /** Linear interpolation of two reals by weight t. */
  function Lerp(a: real, b: real, t: real): real {
    (1.0 - t) * a + t * b
  }

  /** `LinearInterpolation2D`: a + (b − a)·alpha. */
  function LinearInterpolation2D(a: Vec2, b: Vec2, alpha: real): (r: Vec2)
    ensures r.x == Lerp(a.x, b.x, alpha) && r.y == Lerp(a.y, b.y, alpha)
    ensures alpha == 0.0 ==> r == a
    ensures alpha == 1.0 ==> r == b
  {
    LerpWeights(a.x, b.x, alpha);
    LerpWeights(a.y, b.y, alpha);
    AddVec(a, ScaleVec(alpha, SubVec(b, a)))
  }

  lemma LerpWeights(a: real, b: real, t: real)
    ensures a + t * (b - a) == Lerp(a, b, t)
  {
  }

  /**
   * `CalcAASampleCoords`: interpolate along the top and bottom edges by
   * alpha.x, then between them by alpha.y. The result is the bilinear
   * combination of the corners and hits each corner at its matching alpha.
   */
  function CalcAASampleCoords(lt: Vec2, rt: Vec2, lb: Vec2, rb: Vec2, alpha: Vec2): (r: Vec2)
    ensures r == BilinearCoords(lt, rt, lb, rb, alpha)
    ensures alpha == Vec2(0.0, 0.0) ==> r == lt
    ensures alpha == Vec2(1.0, 0.0) ==> r == rt
    ensures alpha == Vec2(0.0, 1.0) ==> r == lb
    ensures alpha == Vec2(1.0, 1.0) ==> r == rb
  {
    var top := LinearInterpolation2D(lt, rt, alpha.x);
    var bottom := LinearInterpolation2D(lb, rb, alpha.x);
    NestedInterpolation(lt, rt, lb, rb, alpha);
    LinearInterpolation2D(top, bottom, alpha.y)
  }

  /** The weighted sum of four reals with the bilinear weights of `Bilinear`. */
  function BilinearSum(lt: real, rt: real, lb: real, rb: real, ax: real, ay: real): real {
    (1.0 - ax) * (1.0 - ay) * lt + ax * (1.0 - ay) * rt + (1.0 - ax) * ay * lb + ax * ay * rb
  }

  /** The bilinear combination of four corner points, coordinate by coordinate. */
  function BilinearCoords(lt: Vec2, rt: Vec2, lb: Vec2, rb: Vec2, alpha: Vec2): Vec2 {
    Vec2(BilinearSum(lt.x, rt.x, lb.x, rb.x, alpha.x, alpha.y),
         BilinearSum(lt.y, rt.y, lb.y, rb.y, alpha.x, alpha.y))
  }

  lemma NestedInterpolation(lt: Vec2, rt: Vec2, lb: Vec2, rb: Vec2, alpha: Vec2)
    ensures LinearInterpolation2D(LinearInterpolation2D(lt, rt, alpha.x), LinearInterpolation2D(lb, rb, alpha.x), alpha.y)
         == BilinearCoords(lt, rt, lb, rb, alpha)
  {
    var top := LinearInterpolation2D(lt, rt, alpha.x);
    var bottom := LinearInterpolation2D(lb, rb, alpha.x);
    BilinearCombination(lt.x, rt.x, lb.x, rb.x, alpha.x, alpha.y);
    BilinearCombination(lt.y, rt.y, lb.y, rb.y, alpha.x, alpha.y);
  }

  /** Nesting two linear interpolations gives the bilinear weights. */
  lemma BilinearCombination(lt: real, rt: real, lb: real, rb: real, ax: real, ay: real)
    ensures Lerp(Lerp(lt, rt, ax), Lerp(lb, rb, ax), ay) == BilinearSum(lt, rt, lb, rb, ax, ay)
  {
    calc {
      Lerp(Lerp(lt, rt, ax), Lerp(lb, rb, ax), ay);
      (1.0 - ay) * ((1.0 - ax) * lt + ax * rt) + ay * ((1.0 - ax) * lb + ax * rb);
      (1.0 - ay) * ((1.0 - ax) * lt) + (1.0 - ay) * (ax * rt) + ay * ((1.0 - ax) * lb) + ay * (ax * rb);
      BilinearSum(lt, rt, lb, rb, ax, ay);
    }
  }
}
