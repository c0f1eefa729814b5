# OpticsCompensation_s in Dafny

A model of the core of OpticsCompensation_s. This is a lens-distortion filter
for a video editor's scripting host. It warps an RGBA frame either by the
"spool" (arctangent) mapping or by the "barrel" (tangent) mapping around a
centre that can be offset. The barrel warp can optionally be supersampled 2×2.
Warps resample the premultiplied frame with a bilinear blend that has a
transparent border.

The system has two back ends: OpenMP loops on the CPU and OpenCL kernels on an
accelerator. The model covers:

- the sampling helpers (`Sampling`, from `src/cpu_kernel.h`);
- the CPU kernels: premultiply, unpremultiply, spool, and barrel with its
  supersampling loop (`CpuKernel`, from `src/cpu_kernel.cc`);
- the accelerator dispatch layer: kernel names, argument binding, centre and
  launch ranges (`ClKernel`, from `src/cl_kernel.cc`);
- the warp parameter record (`Parameter`, from `src/parameter.h`);
- the stopwatch used for timing (`Stopwatch`, from `src/stopwatch.h`);
- the script entry point that halves the red channel of the frame
  (`PluginEntry`, from `src/optics_compensation_s.cc`).

`Pixels` holds the shared value types: `byte`, `Size2D`, `Vec2`, 8-bit and
float RGBA pixels, the truncating casts, and row-major indexing.

How the model represents the system:

- Float channels and coordinates are `real`.
- Float-to-integer conversion truncates toward zero (`Trunc`). It is the first
  step of `static_cast<uchar>` and of `std::fmod`. The `static_cast<int>` of
  `std::floor`/`std::ceil` is `Floor`/`Ceil`, and the narrowing of the
  microsecond count is `ToInt32`.
- `static_cast<uchar>` is truncation followed by reduction modulo 256
  (`ToByte`).
- An input image is a sequence of rows (`img.ptr(y)[x]`).
- An output buffer is a flat `array` written at slot `y * w + x` (`PixelIndex`),
  as the kernels' pointer arithmetic does. `Rows` reads such a buffer back as
  rows, so what the premultiply and unpremultiply kernels write can be compared
  with the whole-image functions.
- The coordinate mappings `CalcSpoolCoord`/`CalcBarrelCoord` are a function
  parameter of type `CoordMap`.
- `CalcFocalDistance` applies a caller-supplied function of the amount.
- Clock readings are integer microseconds passed in as `now`.

Where the code is inconsistent with itself, or surprising, the model follows the code:

- The CPU centre is `(w - 1) / 2 - offset`, while the accelerator centre is
  `(w - 1) / 2 + offset`. The model keeps both signs and proves when they agree
  (`ClKernel.CentersAgreeIffNoOffset`).
- `center_pos` is read by both kernel files, but the parameter struct does not
  declare it. The model adds it as `centerPos`, set to (0, 0) by both
  constructors.
- The warp mappings divide by the distance from the centre with no zero guard.
  That is why they stay abstract, and nothing is claimed about the centre pixel.
- `Stop` on an idle stopwatch returns the accumulated microseconds without
  scaling them. The model keeps this (`Stopwatch.StopWhileIdle`,
  `Stopwatch.StopTwice`).
- `StopPrint` always stops in milliseconds before it scales the total by the
  requested unit.

## Model

| member | source | states |
|---|---|---|
| Pixels.Trunc | src/cpu_kernel.cc:32-35 | defines float-to-integer conversion toward zero, the first step of each `static_cast<uchar>` here and of `std::fmod` |
| Pixels.TruncTowardZero | src/cpu_kernel.cc:32-35 | truncation rounds toward zero: down and non-negative for v ≥ 0, up and non-positive for v < 0, by less than one |
| Pixels.ToByte | src/cpu_kernel.cc:32-35 | the 8-bit cast of a value in [0, 256) is the byte whose unit interval contains it |
| Pixels.PixelIndex | src/cpu_kernel.cc:12 | slot y·w + x of an in-image pixel lies in the w·h buffer, and its column and row are recovered by % w and / w |
| Pixels.Rows | src/cpu_kernel.cc:12 | the flat w·h buffer read as h rows of w pixels: row y, column x is slot y·w + x |
| Pixels.SlotCoordinates | src/optics_compensation_s.cc:10-12 | every slot below w·h is the slot of exactly one in-image pixel, so a row-major loop over (x, y) reaches all of them |
| Parameter.MakeParameter | src/parameter.h:22-26 | the three-argument constructor stores amount, spool mode and anti-aliasing in the same-named fields; the centre offset is zero |
| Parameter.DefaultParameter | src/parameter.h:18-20 | the default constructor gives amount 0, no spool mode, no anti-aliasing, zero offset |
| Parameter.CalcFocalDistance | src/parameter.h:28-30 | defines the focal distance as a function of the amount alone; the tangent formula is a parameter |
| Parameter.FocalDistanceDependsOnAmountOnly | src/parameter.h:28-30 | two parameter records with equal amounts have equal focal distances, whatever their mode, flag or offset |
| Sampling.SamplePixelAt | src/cpu_kernel.h:12-19 | defines the integer `SamplingPixel`: the pixel at row y, column x inside the grid, the zero pixel outside |
| Sampling.SamplePixelAtBorder | src/cpu_kernel.h:12-19 | an integer sample outside [0,w)×[0,h) is (0,0,0,0); inside, it is exactly the stored pixel at row y, column x |
| Sampling.FModOne | src/cpu_kernel.h:24-25 | defines `std::fmod(v, 1.f)`: v minus its truncation toward zero |
| Sampling.FModOneRange | src/cpu_kernel.h:24-25 | `fmod(v, 1)` lies strictly between −1 and 1 and has the sign of v |
| Sampling.Offset | src/cpu_kernel.h:24-25 | defines dx: `fmod(v, 1)` for v ≥ 0 and `1 − abs(fmod(v, 1))` for v < 0 |
| Sampling.OffsetFraction | src/cpu_kernel.h:24-25 | the offset dx lies in [0, 1]; it is x − ⌊x⌋ for x ≥ 0 and for negative non-integers, and 1 (not 0) at a negative integer |
| Sampling.Floor | src/cpu_kernel.h:27-28 | defines `static_cast<int>(std::floor(v))`: the greatest integer not above v |
| Sampling.Ceil | src/cpu_kernel.h:29-30 | defines `static_cast<int>(std::ceil(v))`: the least integer not below v |
| Sampling.FloorCeil | src/cpu_kernel.h:27-30 | floor and ceiling coincide exactly at integers and otherwise differ by one |
| Sampling.Bilinear | src/cpu_kernel.h:37-40 | defines the blend of the four neighbours with weights (1−dx)(1−dy), dx(1−dy), (1−dx)dy, dx·dy |
| Sampling.SamplePixel | src/cpu_kernel.h:21-41 | defines the float `SamplingPixel`: the blend of the four integer samples at floor/ceil of x and y with the offsets dx, dy |
| Sampling.BilinearWeights | src/cpu_kernel.h:37-40 | the four blend weights each lie in [0, 1] and sum to 1 |
| Sampling.SampleAtLattice | src/cpu_kernel.h:21-41 | a real sample at an integer coordinate equals the integer sample there (zero outside the image) |
| Sampling.SampleOutsideIsZero | src/cpu_kernel.h:27-40 | when all four lattice neighbours are outside the image the real sample is (0,0,0,0) |
| Sampling.SampleAtMinusOne | src/cpu_kernel.h:24-40 | the sample at (−1, −1) is (0,0,0,0) |
| Sampling.BilinearKeepsPremultiplied | src/cpu_kernel.h:37-40 | the blend of four premultiplied pixels with weights in [0, 1] is premultiplied |
| Sampling.SampleKeepsPremultiplied | src/cpu_kernel.h:21-41 | resampling a premultiplied image anywhere gives a premultiplied pixel |
| Sampling.LinearInterpolation2D | src/cpu_kernel.h:77-79 | a + (b − a)·alpha is (1 − alpha)·a + alpha·b per coordinate: a at alpha 0, b at alpha 1 |
| Sampling.CalcAASampleCoords | src/cpu_kernel.h:81-87 | interpolating top and bottom edges by alpha.x and then between them by alpha.y is the bilinear combination of the corners; it returns lt, rt, lb, rb at alpha (0,0), (1,0), (0,1), (1,1) |
| Sampling.NestedInterpolation | src/cpu_kernel.h:84-86 | the nested interpolation equals the weighted corner sum with the weights of the pixel blend |
| CpuKernel.PremultPixel | src/cpu_kernel.cc:13-17 | defines premultiplication: each colour times the raw 0..255 alpha, alpha copied |
| CpuKernel.UnpremultPixel | src/cpu_kernel.cc:31-41 | defines unpremultiplication: each channel divided by alpha and cast to `uchar`, alpha cast, and (0,0,0,0) at alpha 0 |
| CpuKernel.PremultRoundTrip | src/cpu_kernel.cc:13-17 | premultiply then unpremultiply maps an 8-bit pixel with alpha ≠ 0 to itself and one with alpha 0 to (0,0,0,0) |
| CpuKernel.UnpremultTransparent | src/cpu_kernel.cc:36-41 | zero alpha unpremultiplies to (0,0,0,0) whatever the colour channels hold |
| CpuKernel.UnpremultNoWrap | src/cpu_kernel.cc:31-35 | on a premultiplied pixel with alpha ≠ 0, each output channel is the truncated quotient channel / alpha (and alpha truncated) with no 8-bit wrap |
| CpuKernel.PremultIsPremultiplied | src/cpu_kernel.cc:13-17 | the premultiplied pixel has alpha in [0, 255] and each colour channel between 0 and 255·alpha (raw alpha, not normalised) |
| CpuKernel.PremultImage | src/cpu_kernel.cc:9-17 | the premultiplied image has the input's shape, and each pixel is the premultiplied input pixel at the same place |
| CpuKernel.UnpremultImage | src/cpu_kernel.cc:26-41 | the unpremultiplied image has the input's shape, and each pixel is the unpremultiplied input pixel at the same place |
| CpuKernel.ImageRoundTrip | src/cpu_kernel.cc:5-44 | the whole-image functions `UnpremultImage ∘ PremultImage` (which the two kernels' buffers equal, read as rows) give back every pixel with alpha ≠ 0 and clear the transparent ones; an image with no transparent pixel comes back unchanged |
| CpuKernel.PremultImageIsPremultiplied | src/cpu_kernel.cc:5-20 | every pixel of a premultiplied image is premultiplied |
| CpuKernel.PremultKernel | src/cpu_kernel.cc:5-20 | output slot y·w + x holds the premultiplied input pixel (x, y), for every (x, y) of the image; the buffer read as rows is `PremultImage` of the input |
| CpuKernel.UnpremultKernel | src/cpu_kernel.cc:22-44 | output slot y·w + x holds the unpremultiplied input pixel (x, y), through the zero-alpha branch where it applies; the buffer read as rows is `UnpremultImage` of the input |
| CpuKernel.KernelRoundTrip | src/cpu_kernel.cc:5-44 | when one buffer holds what `PremultKernel` writes and a second what `UnpremultKernel` writes from the first, each slot of the second holds its original pixel, transparent ones cleared |
| CpuKernel.CpuCenter | src/cpu_kernel.cc:49-52 | defines the CPU distortion centre ((w−1)/2 − offset.x, (h−1)/2 − offset.y), the same in both warps (lines 78-81) |
| CpuKernel.MappedPixel | src/cpu_kernel.cc:117-121 | defines mapping output point (x, y) about a centre with a focal distance and taking the float sample at the mapped coordinate (also lines 58-62) |
| CpuKernel.SpoolPixel | src/cpu_kernel.cc:57-62 | defines spool output pixel (x, y): the float sample at the spool mapping of (x, y) about the CPU centre with the focal distance |
| CpuKernel.MappedCorners | src/cpu_kernel.cc:90-97 | defines the four corners (x ∓ 0.5, y ∓ 0.5) of an output pixel, each passed through the barrel mapping |
| CpuKernel.SubSampleOffset | src/cpu_kernel.cc:101-102 | defines the k-th value of `sx`/`sy`: (2k + 1) / (2·SAMPLE_NUM), starting at 1/SAMPLE_NUM/2 and stepping by 1/SAMPLE_NUM |
| CpuKernel.SubSample | src/cpu_kernel.cc:103-109 | defines sub-sample (i, j): the float sample at `CalcAASampleCoords` of the mapped corners with alpha (offset i, offset j) |
| CpuKernel.SubSamples | src/cpu_kernel.cc:103-109 | defines the grid of all sub-samples of one output pixel, entry (i, j) being `SubSample` at i, j |
| CpuKernel.RowSum | src/cpu_kernel.cc:102-112 | defines the `pixel += sampled_pixel` total of the first i samples of row j, added left to right |
| CpuKernel.GridSum | src/cpu_kernel.cc:101-113 | defines the `pixel += sampled_pixel` total of the first j rows of SAMPLE_NUM samples each, added row by row |
| CpuKernel.AAPixel | src/cpu_kernel.cc:99-115 | defines the supersampled pixel: the SAMPLE_NUM² samples at the interpolated corner points, summed and divided by their count |
| CpuKernel.BarrelPixel | src/cpu_kernel.cc:86-124 | defines barrel output pixel (x, y): `AAPixel` of the mapped corners with anti-aliasing, otherwise the float sample at the barrel mapping of (x, y) |
| CpuKernel.SpoolCPUKernel | src/cpu_kernel.cc:46-68 | output slot y·w + x holds the input resampled at the spool image of (x, y) about the CPU centre ((w−1)/2 − offset) with the parameter's focal distance |
| CpuKernel.BarrelCPUKernel | src/cpu_kernel.cc:70-127 | with amount 1 the output buffer is unchanged; otherwise slot y·w + x holds the barrel pixel: the supersampled average of the four mapped corners at ±0.5 when anti-aliasing is on, else the sample at the mapped coordinate |
| CpuKernel.AntiAliasedPixel | src/cpu_kernel.cc:99-114 | the sy/sx loops take exactly SAMPLE_NUM² sub-samples, one per weight pair (offset i, offset j), add them up row by row and divide by their count |
| CpuKernel.SubSampleStep | src/cpu_kernel.cc:101-102 | stepping a weight by 1/SAMPLE_NUM gives the next sub-pixel weight, and the loop guard `< 1` admits exactly the first SAMPLE_NUM of them |
| CpuKernel.GridMeanOfFour | src/cpu_kernel.cc:3 | with SAMPLE_NUM = 2 the weights are 1/4 and 3/4, and the sum divided by the count is the mean of exactly four samples |
| CpuKernel.AAPixelKeepsPremultiplied | src/cpu_kernel.cc:99-115 | the supersampled pixel of a premultiplied image is premultiplied |
| CpuKernel.AAPixelOfPoint | src/cpu_kernel.cc:99-114 | when all four corners map to one point, supersampling gives the plain sample at that point |
| CpuKernel.SpoolKeepsPremultiplied | src/cpu_kernel.cc:58-65 | every spool output pixel of a premultiplied image is premultiplied |
| CpuKernel.BarrelKeepsPremultiplied | src/cpu_kernel.cc:89-123 | every barrel output pixel of a premultiplied image is premultiplied, on both branches |
| CpuKernel.RepeatMean | src/cpu_kernel.cc:110-114 | averaging n copies of one pixel gives that pixel back |
| ClKernel.KernelName | src/cl_kernel.cc:4-112 | defines the kernel name each manager creates: "Spool", "Barrel", "MultiSamplingBarrel", "Premult", "Unpremult" |
| ClKernel.KernelNamesDistinct | src/cl_kernel.cc:4-112 | the five managers name five distinct kernels: "Spool", "Barrel", "MultiSamplingBarrel", "Premult", "Unpremult" |
| ClKernel.GlobalSize | src/cl_kernel.cc:22-26 | defines one global range extent: ⌈n / 16⌉ · 16 |
| ClKernel.GlobalRange | src/cl_kernel.cc:22-26 | defines `cl::NDRange global`: (⌈w/16⌉·16, ⌈h/16⌉·16, 1) |
| ClKernel.GlobalSizeCovers | src/cl_kernel.cc:22-26 | ⌈n/16⌉·16 is a multiple of 16, at least n, less than n + 16, and equal to ((n + 15) / 16)·16 |
| ClKernel.ClCenter | src/cl_kernel.cc:12-15 | defines the accelerator centre ((w−1)/2 + offset.x, (h−1)/2 + offset.y) |
| ClKernel.CentersAgreeIffNoOffset | src/cl_kernel.cc:12-15 | the CPU centre and the accelerator centre are equal if and only if the centre offset is (0, 0) |
| ClKernel.CentersMirror | src/cl_kernel.cc:39-42 | the accelerator centre is (w−1)/2 + offset: the two centres are mirror images about the image midpoint and lie 2·offset apart |
| ClKernel.WarpArgs | src/cl_kernel.cc:17-21 | defines the warp argument list: input image, output image, size, centre, focal distance, and 4 as argument 5 for multi-sampling (line 76) |
| ClKernel.AlphaArgs | src/cl_kernel.cc:94-96 | defines the alpha-kernel argument list: input image, output image, size |
| ClKernel.WarpLaunch | src/cl_kernel.cc:9-29 | defines a warp launch: the manager's kernel with the argument list bound over the current arguments, offset (0,0,0), the rounded-up global range, local range (16,16,1) |
| ClKernel.AlphaLaunch | src/cl_kernel.cc:91-107 | defines an alpha launch in the same way over the three-argument list |
| ClKernel.Bind | src/cl_kernel.cc:17-21 | defines the effect of `setArg(0, …)`, `setArg(1, …)`, … in order: list entry k bound at index k over the earlier arguments |
| ClKernel.BindFrom | src/cl_kernel.cc:17-21 | defines the remaining `setArg` calls from index k on, applied in increasing order |
| ClKernel.BindFromSets | src/cl_kernel.cc:17-21 | binding from index k on makes exactly the earlier indices plus k..n−1 bound, gives each of k..n−1 its list entry, and keeps every other bound index (by induction on n − k) |
| ClKernel.BindSets | src/cl_kernel.cc:17-21 | binding a list by index sets exactly indices 0..n−1 to its entries and keeps every other bound index |
| ClKernel.WarpLaunchLayout | src/cl_kernel.cc:36-56 | a warp launch binds 0..4 to input image, output image, (w, h), accelerator centre, focal distance; the multi-sampling variant also binds argument 5 to 4, the others leave it; offset (0,0,0), local (16,16,1), global covers the image |
| ClKernel.FreshWarpLaunchArity | src/cl_kernel.cc:63-84 | on a fresh kernel the spool and barrel launches bind exactly five arguments and the multi-sampling launch exactly six |
| ClKernel.AlphaLaunchLayout | src/cl_kernel.cc:91-107 | a premultiply or unpremultiply launch binds exactly 0..2 to input image, output image, (w, h) over the same launch geometry |
| ClKernel.KernelManager.constructor | src/cl_kernel.cc:4-7 | a manager starts with its variant's kernel name, no bound arguments and the given command queue |
| ClKernel.KernelManager.SetCommandQueue | src/cl_manager.cc:205-207 | the manager now uses the given queue; bound arguments are kept |
| ClKernel.KernelManager.SetArg | src/cl_kernel.cc:17 | `setArg(i, v)` rebinds index i and nothing else |
| ClKernel.KernelManager.CallKernel | src/cl_kernel.cc:9-29 | the bound arguments become those of the warp launch and exactly that launch is appended to the command queue |
| ClKernel.KernelManager.CallAlphaKernel | src/cl_kernel.cc:114-130 | `CallPremult`/`CallUnpremult`: the bound arguments become those of the three-argument launch, which is appended to the queue |
| ClKernel.CommandQueue.constructor | src/cl_manager.cc:113-116 | `new cl::CommandQueue`: the model's queue starts with an empty launch history |
| ClKernel.CommandQueue.EnqueueNDRangeKernel | src/cl_kernel.cc:28 | enqueuing appends one launch recording kernel, arguments, offset, global and local range |
| Stopwatch.TimeBaseFactor | src/stopwatch.h:106-118 | every time base has a positive factor |
| Stopwatch.FactorConvertsMicroseconds | src/stopwatch.h:106-118 | the factors convert microseconds: s → 1e-6, ms → 1e-3, µs → 1 |
| Stopwatch.ToInt32 | src/stopwatch.h:103 | the narrowing to `int` lands in [−2^31, 2^31), is congruent to its input modulo 2^32, and is the identity in range |
| Stopwatch.DurationMs | src/stopwatch.h:99-104 | the elapsed microseconds from first to second, exact whenever they fit in `int` |
| Stopwatch.NewState | src/stopwatch.h:30-34 | defines the constructed state: idle, zero total, then `Start` if asked |
| Stopwatch.StartState | src/stopwatch.h:36-41 | defines `Start`: nothing while measuring, else `Reset`, measuring from now |
| Stopwatch.ResumeState | src/stopwatch.h:43-47 | defines `Resume`: nothing while measuring, else measuring from now with the total kept |
| Stopwatch.StopState | src/stopwatch.h:49-56 | defines `Stop`: while idle the raw total; else idle, stop = now, the interval added, the total returned in the unit |
| Stopwatch.StopPrintState | src/stopwatch.h:80-85 | defines `StopPrint`: `Stop` in ms, then the total in the requested unit |
| Stopwatch.DurationState | src/stopwatch.h:87-92 | defines `Duration`: the interval since the start added, start moved to now, the total returned in the unit |
| Stopwatch.ResetState | src/stopwatch.h:94-97 | defines `Reset`: idle with zero total, time points kept |
| Stopwatch.NewStopwatch | src/stopwatch.h:30-34 | a new stopwatch has nothing accumulated and measures from now only when constructed with `true` |
| Stopwatch.StartResumeWhileMeasuring | src/stopwatch.h:36-47 | `Start` and `Resume` while measuring change nothing, so repeating either changes nothing |
| Stopwatch.StartVersusResume | src/stopwatch.h:38-46 | from idle, both set measuring and start = now; `Start` clears the total while `Resume` keeps it |
| Stopwatch.StopWhileIdle | src/stopwatch.h:50 | `Stop` while idle changes no field and returns the raw microsecond total, unscaled |
| Stopwatch.StartStopMeasures | src/stopwatch.h:36-55 | `Start` at t0 then `Stop` at t1 leaves the stopwatch idle with total t1 − t0 and returns it scaled by the unit |
| Stopwatch.ResumeAccumulates | src/stopwatch.h:43-55 | `Stop`, `Resume`, `Stop` adds both measured intervals to the earlier total |
| Stopwatch.StopTwice | src/stopwatch.h:49-56 | a second `Stop` changes nothing and returns the unscaled total, while the first returned it scaled |
| Stopwatch.DurationSplits | src/stopwatch.h:87-92 | successive `Duration` calls add each interval to the total, move the start to the last reading and leave the measuring flag alone |
| Stopwatch.ResetClears | src/stopwatch.h:94-97 | `Reset` clears measuring and the total; it is idempotent, and a following `Stop` reports 0 |
| Stopwatch.StopPrintReports | src/stopwatch.h:80-85 | `StopPrint` leaves the state `Stop` would and returns the stopped total in the requested unit |
| Stopwatch.StopWatch.constructor | src/stopwatch.h:30-34 | the object's fields equal the constructor's state function |
| Stopwatch.StopWatch.Start | src/stopwatch.h:36-41 | the new fields are the `Start` state function of the old ones |
| Stopwatch.StopWatch.Resume | src/stopwatch.h:43-47 | the new fields are the `Resume` state function of the old ones |
| Stopwatch.StopWatch.Stop | src/stopwatch.h:49-56 | the new fields and the result are the `Stop` reading of the old fields |
| Stopwatch.StopWatch.StopPrint | src/stopwatch.h:80-85 | the new fields and the result are the `StopPrint` reading of the old fields |
| Stopwatch.StopWatch.Duration | src/stopwatch.h:87-92 | the new fields and the result are the `Duration` reading of the old fields |
| Stopwatch.StopWatch.Reset | src/stopwatch.h:94-97 | the new fields are the `Reset` state function of the old ones |
| PluginEntry.HalveRed | src/optics_compensation_s.cc:13 | `r *= 0.5` stores ⌊r / 2⌋ back into the 8-bit channel and leaves g, b and a unchanged |
| PluginEntry.HalveRedShrinks | src/optics_compensation_s.cc:13 | the new red never exceeds the old, drops strictly when positive, and is 0 exactly when the old one was 0 or 1 |
| PluginEntry.OpticsCompensation | src/optics_compensation_s.cc:5-20 | every slot x + y·w of the w×h buffer has its red channel halved exactly once, other channels kept, and the result is 0 |

## Left out

- The bodies of `CalcSpoolCoord` and `CalcBarrelCoord` (src/cpu_kernel.h:54-75) and the `500 / tan(0.5·amount·π)` of `CalcFocalDistance` use atan, tan, length and a clamp on IEEE floats. They are parameters (`CoordMap`, `focalOf`) of the model.
- IEEE float rounding, NaN and infinities are not modelled: all float arithmetic is exact real arithmetic, so the model of the supersampling loop steps its weights exactly. `static_cast<uchar>` of a value outside 0..255 is undefined in C++; the model reduces it modulo 256. `static_cast<int>(std::floor(x))` and `static_cast<int>(std::ceil(x))` (src/cpu_kernel.h:27-30) of a value outside the `int` range are undefined in C++ too; the model's unbounded `Floor`/`Ceil` make such a coordinate lie outside the image, so it samples (0,0,0,0).
- The `#pragma omp parallel for` loops run sequentially in the model; concurrency is not modelled.
- Image sizes are natural numbers; negative sizes are not modelled, and `int` overflow of `y * w + x` is not modelled.
- The kernels read their input through `cv::Mat` rows and write their output through a flat pointer; the model takes the input as a sequence of rows and the output as a separate array, so it does not model an input and output that alias.
- `aut::DebugPrint` in `BarrelCPUKernel` (src/cpu_kernel.cc:76), src/debug_helper.h and src/out_debug.h are debug printing only.
- The supersampling loops of `BarrelCPUKernel` are a separate method, `CpuKernel.AntiAliasedPixel`, called once per output pixel.
- src/cl_manager.cc and src/cl_manager.h (platform, device, context, queue and program creation, image transfers, DLL loading) are foreign OpenCL calls. `CLKernelManager` is modelled only as a kernel name, its bound arguments and its command queue. The program handle the constructors receive is not modelled, and neither are the effects of `setArg` and `enqueueNDRangeKernel` on the device. The device kernels' source is not part of this model.
- The five manager classes are one class `ClKernel.KernelManager` with a `variant` field, since the model has no inheritance. `CallPremult` and `CallUnpremult` are both `CallAlphaKernel`.
- src/exception.h (the OpenCL error check that throws) is not part of this model.
- `StopWatch::Print` only writes to the console. It is not modelled, and neither are the console output of `StopPrint` or the clock reads (the readings are the `now` parameters). The unreachable `default` branches over `TimeBase` are not modelled, because the datatype has exactly three values.
- The scripting-host calls `getpixeldata`/`putpixeldata` and the module registration (src/optics_compensation_s.cc:8, 17, 23-33) are represented by the array parameter of `PluginEntry.OpticsCompensation`.
