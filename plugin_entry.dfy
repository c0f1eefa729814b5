/**
 * The script entry point `OpticsCompensation`: it fetches the frame's pixel
 * buffer, halves the red channel of every pixel in place, hands the buffer
 * back and returns 0. Fetching and handing back the buffer belong to the host
 * scripting interface and are represented by the array parameter.
 */
module PluginEntry {
  import opened Pixels

  /** `aut::PixelRGBA`: four 8-bit channels. */
  datatype PixelRGBA = PixelRGBA(r: byte, g: byte, b: byte, a: byte)

  /** `pixel.r *= 0.5`: the product converted back to `uchar`, i.e. ⌊r / 2⌋; the other channels stay. */
  function HalveRed(p: PixelRGBA): (q: PixelRGBA)
    ensures q.r == p.r / 2
    ensures q.g == p.g && q.b == p.b && q.a == p.a
  {
    var half := ToByte(p.r as real * 0.5);
    assert half == p.r / 2 by {
      assert (p.r / 2) as real <= p.r as real * 0.5 < (p.r / 2) as real + 1.0;
    }
    p.(r := half)
  }

  /** The new red value never exceeds the old one, and zero stays zero. */
  lemma HalveRedShrinks(p: PixelRGBA)
    ensures HalveRed(p).r <= p.r
    ensures HalveRed(p).r == 0 <==> p.r <= 1
    ensures p.r > 0 ==> HalveRed(p).r < p.r
  {
  }

  /**
   * `OpticsCompensation`: visits (x, y) row by row and halves the red channel
   * of slot x + y·w; every slot of the w×h buffer is halved exactly once.
   */
  method OpticsCompensation(imageData: array<PixelRGBA>, size: Size2D) returns (status: int)
    requires imageData.Length == size.w * size.h
    modifies imageData
    ensures status == 0
    ensures forall y, x :: 0 <= y < size.h && 0 <= x < size.w ==>
      imageData[PixelIndex(size, x, y)] == HalveRed(old(imageData[PixelIndex(size, x, y)]))
    ensures forall i :: 0 <= i < imageData.Length ==> imageData[i] == HalveRed(old(imageData[i]))
  {
    ghost var original := imageData[..];
    for y := 0 to size.h
      invariant forall y', x' :: 0 <= y' < y && 0 <= x' < size.w ==>
        imageData[PixelIndex(size, x', y')] == HalveRed(original[PixelIndex(size, x', y')])
      invariant forall y', x' :: y <= y' < size.h && 0 <= x' < size.w ==>
        imageData[PixelIndex(size, x', y')] == original[PixelIndex(size, x', y')]
    {
      for x := 0 to size.w
        invariant forall y', x' :: 0 <= y' < y && 0 <= x' < size.w ==>
          imageData[PixelIndex(size, x', y')] == HalveRed(original[PixelIndex(size, x', y')])
        invariant forall x' :: 0 <= x' < x ==>
          imageData[PixelIndex(size, x', y)] == HalveRed(original[PixelIndex(size, x', y)])
        invariant forall y', x' :: (y < y' < size.h && 0 <= x' < size.w) || (y' == y && x <= x' < size.w) ==>
          imageData[PixelIndex(size, x', y')] == original[PixelIndex(size, x', y')]
      {
        var index := PixelIndex(size, x, y);
        imageData[index] := HalveRed(imageData[index]);
      }
    }
    forall i | 0 <= i < imageData.Length
      ensures imageData[i] == HalveRed(original[i])
    {
      SlotCoordinates(size, i);
      assert imageData[PixelIndex(size, i % size.w, i / size.w)] == HalveRed(original[PixelIndex(size, i % size.w, i / size.w)]);
    }
    return 0;
  }
}
