/**
 * The accelerator dispatch layer (`SpoolKernelManager`, `BarrelKernelManager`,
 * `MSBarrelKernelManager`, `PremultKernelManager`, `UnpremultKernelManager`):
 * each manager binds its kernel's arguments by index and enqueues one 2-D
 * launch. The device program itself is not part of this model; what is
 * modelled is the name of the kernel, the arguments it would receive, and the
 * launch ranges.
 */
module ClKernel {
  import opened Pixels
  import opened Parameter
  import opened Sampling
  import opened CpuKernel

  /** Work-group edge `block_size`. */
  const BlockSize: nat := 16

  /** The sample count the multi-sampling barrel kernel receives as argument 5. */
  const MultiSampleCount: int := 4

  /** The five manager classes, one per device kernel. */
  datatype KernelVariant = Spool | Barrel | MultiSamplingBarrel | Premult | Unpremult

  predicate IsWarp(v: KernelVariant) {
    v == Spool || v == Barrel || v == MultiSamplingBarrel
  }

  /** The kernel name each manager's constructor hands to `CLKernelManager`. */
  function KernelName(v: KernelVariant): string {
    match v
    case Spool => "Spool"
    case Barrel => "Barrel"
    case MultiSamplingBarrel => "MultiSamplingBarrel"
    case Premult => "Premult"
    case Unpremult => "Unpremult"
  }

  /** Distinct managers launch distinct kernels. */
  lemma KernelNamesDistinct(u: KernelVariant, v: KernelVariant)
    ensures KernelName(u) == KernelName(v) <==> u == v
  {
  }

  /** A device image handle (`cl::Image2D`), identified only by a number. */
  datatype Image2D = Image2D(handle: nat)

  /** The values `setArg` receives: an image, a `cl_int2`, a `cl_float2`, a float or an int. */
  datatype KernelArg =
    | ImageArg(image: Image2D)
    | SizeArg(w: int, h: int)
    | CenterArg(center: Vec2)
    | FloatArg(value: real)
    | IntArg(n: int)

  datatype NDRange = NDRange(x: nat, y: nat, z: nat)

  /** One `enqueueNDRangeKernel` call: the kernel, its bound arguments, offset, global and local range. */
  datatype Dispatch = Dispatch(kernelName: string, args: map<nat, KernelArg>,
                               offset: NDRange, global: NDRange, local: NDRange)

  const ZeroRange: NDRange := NDRange(0, 0, 0)
  const LocalRange: NDRange := NDRange(BlockSize, BlockSize, 1)

  /** `ceil(n / (float)block_size) * block_size`. */
  function GlobalSize(n: nat): nat {
    var blocks := Ceil(n as real / BlockSize as real);
    assert blocks >= 0;
    blocks * BlockSize
  }

  /**
   * The global size is the least multiple of 16 that covers n: a multiple of
   * 16, at least n and less than n + 16, which is ((n + 15) / 16) · 16.
   */
  lemma GlobalSizeCovers(n: nat)
    ensures GlobalSize(n) % BlockSize == 0
    ensures n <= GlobalSize(n) < n + BlockSize
    ensures GlobalSize(n) == (n + BlockSize - 1) / BlockSize * BlockSize
  {
    var q := (n + BlockSize - 1) / BlockSize;
    var v := n as real / BlockSize as real;
    assert (q - 1) as real < v <= q as real by {
      assert (q - 1) * BlockSize < n <= q * BlockSize;
      assert ((q - 1) * BlockSize) as real == (q - 1) as real * BlockSize as real;
      assert (q * BlockSize) as real == q as real * BlockSize as real;
    }
    assert Ceil(v) == q;
  }

  function GlobalRange(size: Size2D): NDRange {
    NDRange(GlobalSize(size.w), GlobalSize(size.h), 1)
  }

  /**
   * The accelerator centre: half of (w - 1) and (h - 1) plus the centre
   * offset, the opposite sign of `CpuCenter`.
   */
  function ClCenter(size: Size2D, p: OpticsCompensationParameter): Vec2 {
    Vec2((size.w as real - 1.0) / 2.0 + p.centerPos.x, (size.h as real - 1.0) / 2.0 + p.centerPos.y)
  }

  /** The two back ends agree on the warp centre exactly when there is no centre offset. */
  lemma CentersAgreeIffNoOffset(size: Size2D, p: OpticsCompensationParameter)
    ensures CpuCenter(size, p) == ClCenter(size, p) <==> p.centerPos == NoOffset
  {
  }

  /** The two centres are mirror images about the image midpoint ((w - 1) / 2, (h - 1) / 2). */
  lemma CentersMirror(size: Size2D, p: OpticsCompensationParameter)
    ensures (CpuCenter(size, p).x + ClCenter(size, p).x) / 2.0 == (size.w as real - 1.0) / 2.0
    ensures (CpuCenter(size, p).y + ClCenter(size, p).y) / 2.0 == (size.h as real - 1.0) / 2.0
    ensures ClCenter(size, p).x - CpuCenter(size, p).x == 2.0 * p.centerPos.x
    ensures ClCenter(size, p).y - CpuCenter(size, p).y == 2.0 * p.centerPos.y
  {
  }

  /** The argument list of a warp kernel, by index; the multi-sampling kernel adds the sample count. */
  function WarpArgs(v: KernelVariant, inImage: Image2D, outImage: Image2D, size: Size2D,
                    p: OpticsCompensationParameter, focalOf: real -> real): seq<KernelArg>
    requires IsWarp(v)
  {
    var common := [ImageArg(inImage), ImageArg(outImage), SizeArg(size.w, size.h),
                   CenterArg(ClCenter(size, p)), FloatArg(CalcFocalDistance(p, focalOf))];
    if v == MultiSamplingBarrel then common + [IntArg(MultiSampleCount)] else common
  }

  /** The argument list of the premultiply and unpremultiply kernels. */
  function AlphaArgs(inImage: Image2D, outImage: Image2D, size: Size2D): seq<KernelArg> {
    [ImageArg(inImage), ImageArg(outImage), SizeArg(size.w, size.h)]
  }

  /** Binding list[k] at index k for every k, over what was bound before, as `setArg` calls 0, 1, 2, ... do. */
  function Bind(bound: map<nat, KernelArg>, list: seq<KernelArg>): map<nat, KernelArg> {
    BindFrom(bound, list, 0)
  }

  /** Binding list[i] at index i for i = k, k + 1, ..., |list| - 1, in that order. */
  function BindFrom(bound: map<nat, KernelArg>, list: seq<KernelArg>, k: nat): map<nat, KernelArg>
    requires k <= |list|
    decreases |list| - k
  {
    if k == |list| then bound else BindFrom(bound[k := list[k]], list, k + 1)
  }

  lemma {:induction false} BindFromSets(bound: map<nat, KernelArg>, list: seq<KernelArg>, k: nat)
    requires k <= |list|
    ensures forall i: nat :: i in BindFrom(bound, list, k) <==> i in bound || k <= i < |list|
    ensures forall i: nat :: k <= i < |list| ==> BindFrom(bound, list, k)[i] == list[i]
    ensures forall i: nat :: (i < k || i >= |list|) && i in bound ==> BindFrom(bound, list, k)[i] == bound[i]
    decreases |list| - k
  {
    if k < |list| {
      BindFromSets(bound[k := list[k]], list, k + 1);
    }
  }

  /**
   * Binding a list sets exactly the indices below its length to its entries
   * and keeps every other index as it was.
   */
  lemma BindSets(bound: map<nat, KernelArg>, list: seq<KernelArg>)
    ensures forall k: nat :: k in Bind(bound, list) <==> k in bound || k < |list|
    ensures forall k: nat :: k < |list| ==> Bind(bound, list)[k] == list[k]
    ensures forall k: nat :: k >= |list| && k in bound ==> Bind(bound, list)[k] == bound[k]
  {
    BindFromSets(bound, list, 0);
  }

  /** The launch a warp manager's `CallKernel` enqueues, given what its kernel already had bound. */
  function WarpLaunch(v: KernelVariant, bound: map<nat, KernelArg>, inImage: Image2D, outImage: Image2D,
                      size: Size2D, p: OpticsCompensationParameter, focalOf: real -> real): Dispatch
    requires IsWarp(v)
  {
    Dispatch(KernelName(v), Bind(bound, WarpArgs(v, inImage, outImage, size, p, focalOf)),
             ZeroRange, GlobalRange(size), LocalRange)
  }

  /** The launch `CallPremult` or `CallUnpremult` enqueues. */
  function AlphaLaunch(v: KernelVariant, bound: map<nat, KernelArg>, inImage: Image2D, outImage: Image2D,
                       size: Size2D): Dispatch
    requires v == Premult || v == Unpremult
  {
    Dispatch(KernelName(v), Bind(bound, AlphaArgs(inImage, outImage, size)), ZeroRange, GlobalRange(size), LocalRange)
  }

  /** Every launch has offset (0, 0, 0), local range (16, 16, 1) and a global range that covers the image in whole blocks. */
  predicate LaunchGeometry(d: Dispatch, size: Size2D) {
    d.offset == NDRange(0, 0, 0) && d.local == NDRange(16, 16, 1) && d.global.z == 1
    && d.global.x % 16 == 0 && size.w <= d.global.x < size.w + 16
    && d.global.y % 16 == 0 && size.h <= d.global.y < size.h + 16
  }

  /**
   * A warp launch runs the variant's kernel over the covering geometry with
   * arguments 0..4 = input image, output image, (w, h), accelerator centre,
   * focal distance; argument 5 is bound to 4 by the multi-sampling variant
   * only (the others leave index 5 as it was); no other index changes.
   */
  lemma WarpLaunchLayout(v: KernelVariant, bound: map<nat, KernelArg>, inImage: Image2D, outImage: Image2D,
                         size: Size2D, p: OpticsCompensationParameter, focalOf: real -> real)
    requires IsWarp(v)
    ensures var d := WarpLaunch(v, bound, inImage, outImage, size, p, focalOf);
      && d.kernelName == KernelName(v)
      && LaunchGeometry(d, size)
      && {0, 1, 2, 3, 4} <= d.args.Keys
      && d.args[0] == ImageArg(inImage) && d.args[1] == ImageArg(outImage)
      && d.args[2] == SizeArg(size.w, size.h)
      && d.args[3] == CenterArg(ClCenter(size, p))
      && d.args[4] == FloatArg(CalcFocalDistance(p, focalOf))
      && (v == MultiSamplingBarrel ==> 5 in d.args && d.args[5] == IntArg(4))
      && (v != MultiSamplingBarrel ==> (5 in d.args <==> 5 in bound) && (5 in bound ==> d.args[5] == bound[5]))
      && (forall k: nat :: k > 5 ==> (k in d.args <==> k in bound) && (k in bound ==> d.args[k] == bound[k]))
  {
    var list := WarpArgs(v, inImage, outImage, size, p, focalOf);
    BindSets(bound, list);
    GlobalSizeCovers(size.w);
    GlobalSizeCovers(size.h);
  }

  /** On a kernel with nothing bound yet, a warp launch binds exactly indices 0..4, or 0..5 for multi-sampling. */
  lemma FreshWarpLaunchArity(v: KernelVariant, inImage: Image2D, outImage: Image2D,
                             size: Size2D, p: OpticsCompensationParameter, focalOf: real -> real)
    requires IsWarp(v)
    ensures WarpLaunch(v, map[], inImage, outImage, size, p, focalOf).args.Keys ==
      if v == MultiSamplingBarrel then {0, 1, 2, 3, 4, 5} else {0, 1, 2, 3, 4}
  {
    var list := WarpArgs(v, inImage, outImage, size, p, focalOf);
    BindSets(map[], list);
    var keys := WarpLaunch(v, map[], inImage, outImage, size, p, focalOf).args.Keys;
    if v == MultiSamplingBarrel {
      assert forall k :: k in keys <==> 0 <= k < 6;
    } else {
      assert forall k :: k in keys <==> 0 <= k < 5;
    }
  }

  /**
   * A premultiply or unpremultiply launch runs the variant's kernel over the
   * covering geometry with arguments 0..2 = input image, output image, (w, h),
   * and changes no other index.
   */
  lemma AlphaLaunchLayout(v: KernelVariant, bound: map<nat, KernelArg>, inImage: Image2D, outImage: Image2D,
                          size: Size2D)
    requires v == Premult || v == Unpremult
    ensures var d := AlphaLaunch(v, bound, inImage, outImage, size);
      && d.kernelName == KernelName(v)
      && LaunchGeometry(d, size)
      && d.args.Keys == bound.Keys + {0, 1, 2}
      && d.args[0] == ImageArg(inImage) && d.args[1] == ImageArg(outImage)
      && d.args[2] == SizeArg(size.w, size.h)
      && (forall k: nat :: k > 2 && k in bound ==> d.args[k] == bound[k])
  {
    var list := AlphaArgs(inImage, outImage, size);
    BindSets(bound, list);
    assert forall k: nat :: k in Bind(bound, list) <==> k in bound || k < 3;
    GlobalSizeCovers(size.w);
    GlobalSizeCovers(size.h);
  }

  /** `cl::CommandQueue`, reduced to the launches enqueued on it, oldest first. */
  class CommandQueue {
    var enqueued: seq<Dispatch>

    constructor ()
      ensures enqueued == []
    {
      enqueued := [];
    }

    /** `enqueueNDRangeKernel`: appends one launch of the kernel with its current arguments. */
    method EnqueueNDRangeKernel(kernelName: string, args: map<nat, KernelArg>,
                                offset: NDRange, global: NDRange, local: NDRange)
      modifies this
      ensures enqueued == old(enqueued) + [Dispatch(kernelName, args, offset, global, local)]
    {
      enqueued := enqueued + [Dispatch(kernelName, args, offset, global, local)];
    }
  }

  /**
   * `CLKernelManager` and its five subclasses: the kernel, reduced to its name
   * and its bound arguments, and the command queue launches go to.
   */
  class KernelManager {
    const variant: KernelVariant
    const kernelName: string := KernelName(variant)
    var args: map<nat, KernelArg>
    var commandQueue: CommandQueue

    /** The subclass constructors: create the named kernel, then `SetCommandQueue`. */
    constructor (variant: KernelVariant, commandQueue: CommandQueue)
      ensures this.variant == variant && kernelName == KernelName(variant)
      ensures args == map[] && this.commandQueue == commandQueue
    {
      this.variant := variant;
      args := map[];
      this.commandQueue := commandQueue;
      new;
      SetCommandQueue(commandQueue);
    }

    method SetCommandQueue(commandQueue: CommandQueue)
      modifies this
      ensures this.commandQueue == commandQueue && args == old(args)
    {
      this.commandQueue := commandQueue;
    }

    /** `kernel_->setArg(index, arg)`. */
    method SetArg(index: nat, arg: KernelArg)
      modifies this
      ensures args == old(args)[index := arg] && commandQueue == old(commandQueue)
    {
      args := args[index := arg];
    }

    /** `CallKernel` of the spool, barrel and multi-sampling barrel managers. */
    method CallKernel(inImage: Image2D, outImage: Image2D, size: Size2D,
                      p: OpticsCompensationParameter, focalOf: real -> real)
      requires IsWarp(variant)
      modifies this, commandQueue
      ensures commandQueue == old(commandQueue)
      ensures args == WarpLaunch(variant, old(args), inImage, outImage, size, p, focalOf).args
      ensures commandQueue.enqueued ==
        old(commandQueue.enqueued) + [WarpLaunch(variant, old(args), inImage, outImage, size, p, focalOf)]
    {
      ghost var list := WarpArgs(variant, inImage, outImage, size, p, focalOf);
      ghost var bound := args;
      var centerCoords := ClCenter(size, p);
      SetArg(0, ImageArg(inImage));
      assert BindFrom(args, list, 1) == Bind(bound, list);
      SetArg(1, ImageArg(outImage));
      assert BindFrom(args, list, 2) == Bind(bound, list);
      SetArg(2, SizeArg(size.w, size.h));
      assert BindFrom(args, list, 3) == Bind(bound, list);
      SetArg(3, CenterArg(centerCoords));
      assert BindFrom(args, list, 4) == Bind(bound, list);
      SetArg(4, FloatArg(CalcFocalDistance(p, focalOf)));
      assert BindFrom(args, list, 5) == Bind(bound, list);
      if variant == MultiSamplingBarrel {
        SetArg(5, IntArg(MultiSampleCount));
        assert BindFrom(args, list, 6) == Bind(bound, list);
      }
      var global := NDRange(GlobalSize(size.w), GlobalSize(size.h), 1);
      var local := NDRange(BlockSize, BlockSize, 1);
      commandQueue.EnqueueNDRangeKernel(kernelName, args, NDRange(0, 0, 0), global, local);
    }

    /** `CallPremult` / `CallUnpremult`. */
    method CallAlphaKernel(inImage: Image2D, outImage: Image2D, size: Size2D)
      requires (variant == Premult || variant == Unpremult)
      modifies this, commandQueue
      ensures commandQueue == old(commandQueue)
      ensures args == AlphaLaunch(variant, old(args), inImage, outImage, size).args
      ensures commandQueue.enqueued ==
        old(commandQueue.enqueued) + [AlphaLaunch(variant, old(args), inImage, outImage, size)]
    {
      ghost var list := AlphaArgs(inImage, outImage, size);
      ghost var bound := args;
      SetArg(0, ImageArg(inImage));
      assert BindFrom(args, list, 1) == Bind(bound, list);
      SetArg(1, ImageArg(outImage));
      assert BindFrom(args, list, 2) == Bind(bound, list);
      SetArg(2, SizeArg(size.w, size.h));
      assert BindFrom(args, list, 3) == Bind(bound, list);
      var global := NDRange(GlobalSize(size.w), GlobalSize(size.h), 1);
      var local := NDRange(BlockSize, BlockSize, 1);
      commandQueue.EnqueueNDRangeKernel(kernelName, args, NDRange(0, 0, 0), global, local);
    }
  }
}
