# ViSP core, modelled in Dafny

This project models a selection of the ViSP computer-vision library. Each part is a Dafny module, named after the ViSP component it models:

- `YuvConvert` covers `vpImageConvert`'s packed YUV converters: YUYV and YUV422 (4:2:2), YUV411 and YUV444 to RGBa, RGB and grey, and the YUV420 luma extraction to grey. The converters are methods over `array<byte>` that fill the destination in place. Each is proved against a per-byte specification function of the source bytes.
- `ImageFilter`, `ImageFilterSeparable` and `ImageFilterKernels` cover `vpImageFilter`:
  - the 2-D correlation/convolution `filter`;
  - the separable row and column passes;
  - the Sobel and Scharr kernel tables and the fixed 7-tap derivative;
  - the histogram cumulative-count search behind the Canny thresholds;
  - the normalisations.
- `CircleHoughParams` covers `vpCircleHoughTransform::vpCircleHoughTransformParams`: its constructor's clamping, its setters and its JSON loading.
- `StatisticalTest` covers `vpStatisticalTestAbstract` together with `vpStatisticalTestHinkley`. This means the warm-up statistics, the drift test and the Hinkley cumulated sums.
- `ParticleFilter` covers `vpParticleFilter`:
  - the resampling check;
  - the weighted-mean filter step;
  - the multinomial resampling, with its uniform draws as parameters.
- `PointMap` covers `vpPointMap`: the point-update plan (which rows are removed and which are kept), the visibility selection and the outlier rows.
- `BundleAdjustment` covers `vpRBBundleAdjustment`: the parameter layout, the observation selection, the Jacobian sparsity pattern and the residual vector.
- `KltTracker` covers `vpKltOpencv`: feature bookkeeping (ids, the next free id, suppression, adding features, tracking with the optical-flow output as a parameter).
- `SilhouetteSettings` covers `vpRBSilhouettePointsExtractionSettings`: selection sampling without replacement, the sample-step setter and JSON loading.
- `VisualOdometryUtils` covers the keypoint object/environment partition of `vpRBVisualOdometryUtils`.
- `BresenhamLine` covers the line rasteriser of the flood-fill tutorial.
- `TemplateExpansion` covers the Python bindings generator's template expansion.
- `ImageConversions` covers the Python bindings' shape and byte-count checks in front of the conversion functions.
- `Panda3DRender` covers `vpPanda3DRenderParameters`.
- `MeanDriftTutorial` covers the mean-drift tutorial's test-type names: the enumerator/name conversions and the list of available tests.
- `Decimal` writes integers in decimal, as `std::to_string` and `%d` do, for the error messages that print a number.

The modelling conventions are these:
- `double` and `float` become `real`.
- Unsigned 32-bit arithmetic is written out modulo 2^32 where it matters.
- Exceptions become `Result`/`Option` values, or an error out-parameter for methods that change state.
- Random draws, OpenCV calls and rendering inputs become parameters.

## Model

| member | source | states |
|---|---|---|
| YuvConvert.Sat | modules/core/src/image/vpImageConvert_yuv.cpp:45-51 | vpSAT leaves a value in [0,255] unchanged, sends a negative value to 0 and a value above 255 to 255 |
| YuvConvert.ClampShift | modules/core/src/image/vpImageConvert_yuv.cpp:395-417 | the `(c >> 8) > 0` / `c < 0` clamp of the 4:2:2, 4:1:1 and 4:4:4 converters agrees with vpSAT on every integer |
| YuvConvert.SatMonotone | modules/core/src/image/vpImageConvert_yuv.cpp:45-51 | saturation keeps the order of its inputs |
| YuvConvert.TruncDiv | modules/core/src/image/vpImageConvert_yuv.cpp:386-389 | the int conversion of a chroma product truncates toward zero: the quotient is the one bracketing the exact value from the zero side |
| YuvConvert.ChromaBounds | modules/core/src/image/vpImageConvert_yuv.cpp:386-389 | the truncated chroma terms U = int((u-128)·0.354) and V = int((v-128)·0.707) lie in [-45,44] and [-90,89], vanish at 128 and have the sign of u-128 |
| YuvConvert.ConvertToRgba | modules/core/src/image/vpImageConvert_yuv.cpp:64-106 | the RGBa converter loop writes, for each of the first n pixels, its R, G, B bytes and alpha_default at the pixel's output position, and leaves the rest of the output untouched |
| YuvConvert.ConvertToRgb | modules/core/src/image/vpImageConvert_yuv.cpp:118-158 | the RGB converter loop writes, for each of the first n pixels, its R, G, B bytes at the pixel's output position, and leaves the rest of the output untouched |
| YuvConvert.WritePixel | modules/core/src/image/vpImageConvert_yuv.cpp:85-103 | one pixel step writes exactly the 3 or 4 output bytes of that pixel: its channels, then alpha_default |
| YuvConvert.RgbaPixelBytes | modules/core/src/image/vpImageConvert_yuv.cpp:85-103 | the RGBa output bytes of a pixel are its R, G, B channels followed by alpha_default |
| YuvConvert.RgbPixelBytes | modules/core/src/image/vpImageConvert_yuv.cpp:140-156 | the RGB output bytes of a pixel are its R, G, B channels |
| YuvConvert.RgbaStep | modules/core/src/image/vpImageConvert_yuv.cpp:64-106 | one pass of the RGBa loop extends the correct output prefix by one pixel |
| YuvConvert.RgbStep | modules/core/src/image/vpImageConvert_yuv.cpp:118-158 | one pass of the RGB loop extends the correct output prefix by one pixel |
| YuvConvert.ExtractLuma | modules/core/src/image/vpImageConvert_yuv.cpp:170-179 | the grey converters copy the luma byte of each of the first n pixels and write nothing past them |
| YuvConvert.YUYVToRGBa | modules/core/src/image/vpImageConvert_yuv.cpp:64-106 | each group of 4 YUYV bytes becomes 2 RGBa pixels computed with the fixed-point coefficients 454, 88, 183, 359 and saturation; the first 8·h·(w/2) bytes are written and the rest of rgba is unchanged |
| YuvConvert.YUYVToRGB | modules/core/src/image/vpImageConvert_yuv.cpp:118-158 | the same pixels as YUYVToRGBa, 3 bytes each; the first 6·h·(w/2) bytes are written and the rest of rgb is unchanged |
| YuvConvert.YUYVToGrey | modules/core/src/image/vpImageConvert_yuv.cpp:170-179 | grey pixel p is the luma byte of pixel p in the y0 u y1 v layout, for each 4-byte step of the loop, and nothing past those 2·HalfGroups(size) bytes changes |
| YuvConvert.YUV422ToRGBa | modules/core/src/image/vpImageConvert_yuv.cpp:380-478 | each u y0 v y1 group gives 2 RGBa pixels R = Y+2V, G = Y-U-V, B = Y+5U, clamped, with alpha_default; the first 8·(size/2) bytes are written and the rest of rgba is unchanged |
| YuvConvert.YUV422ToRGB | modules/core/src/image/vpImageConvert_yuv.cpp:514-607 | the same pixels as YUV422ToRGBa, 3 bytes each; the first 6·(size/2) bytes are written and the rest of rgb is unchanged |
| YuvConvert.YUV422ToGrey | modules/core/src/image/vpImageConvert_yuv.cpp:619-629 | grey pixel p is the luma byte of pixel p in the u y0 v y1 layout, and nothing past those 2·HalfGroups(size) bytes changes |
| YuvConvert.YUV411ToRGBa | modules/core/src/image/vpImageConvert_yuv.cpp:190-366 | each u y0 y1 v y2 y3 group gives 4 RGBa pixels sharing the group's chroma; the first 16·(size/4) bytes are written and the rest of rgba is unchanged |
| YuvConvert.YUV411ToRGB | modules/core/src/image/vpImageConvert_yuv.cpp:639-809 | the same pixels as YUV411ToRGBa, 3 bytes each; the first 12·(size/4) bytes are written and the rest of rgb is unchanged |
| YuvConvert.YUV411ToGrey | modules/core/src/image/vpImageConvert_yuv.cpp:488-502 | grey pixels 4k..4k+3 are bytes 6k+1, 6k+2, 6k+4, 6k+5 of the source, for each 6-byte step, and nothing past those 4·QuarterGroups(size) bytes changes |
| YuvConvert.GreyLoopsOverrun | modules/core/src/image/vpImageConvert_yuv.cpp:170-179 | the 4:2:2 grey loops write size + size % 2 bytes; the YUV411 loop writes at least size bytes, exactly size iff size is a multiple of 4 |
| YuvConvert.YUV444ToRGBa | modules/core/src/image/vpImageConvert_yuv.cpp:1154-1197 | each u y v triple gives one RGBa pixel; the first 4·size bytes are written and the rest of rgba is unchanged |
| YuvConvert.YUV444ToRGB | modules/core/src/image/vpImageConvert_yuv.cpp:1206-1248 | each u y v triple gives one RGB pixel; the first 3·size bytes are written and the rest of rgb is unchanged |
| YuvConvert.YUV444ToGrey | modules/core/src/image/vpImageConvert_yuv.cpp:1257-1264 | grey[i] = yuv[3i+1] for i < size, and grey past size is unchanged |
| YuvConvert.YUV420ToGrey | modules/core/src/image/vpImageConvert_yuv.cpp:1138-1143 | the grey image is a copy of the first size bytes (the Y plane) and nothing past them changes |
| YuvConvert.GreyLayouts | modules/core/src/image/vpImageConvert_yuv.cpp:170-179 | the luma positions: YUYV 4k and 4k+2, YUV422 4k+1 and 4k+3, YUV411 6k+1, 6k+2, 6k+4, 6k+5, YUV444 3k+1 (also lines 488-502, 619-629, 1257-1264) |
| YuvConvert.AlphaIsDefault | modules/core/src/image/vpImageConvert_yuv.cpp:93-103 | every fourth byte of an RGBa output is alpha_default |
| YuvConvert.RgbIsRgbaWithoutAlpha | modules/core/src/image/vpImageConvert_yuv.cpp:118-158 | an RGB converter writes the bytes of the matching RGBa converter with the alpha bytes left out |
| YuvConvert.NeutralChromaIsGrey | modules/core/src/image/vpImageConvert_yuv.cpp:79-87 | with u = v = 128 both formulas give R = G = B = Y (also lines 386-417) |
| YuvConvert.YuvLumaMonotone | modules/core/src/image/vpImageConvert_yuv.cpp:395-417 | for fixed chroma each channel of the 4:2:2/4:1:1/4:4:4 formula does not decrease when the luma grows |
| YuvConvert.YuyvLumaMonotone | modules/core/src/image/vpImageConvert_yuv.cpp:85-98 | the same for the YUYV formula |
| ImageFilter.GradientLevel | modules/core/include/visp3/core/vpImageFilter.h:314-318 | the gradient level of a pixel is |dx|+|dy| clamped to at most 255 and truncated to an integer in [0,255] |
| ImageFilter.FirstBinAbove | modules/core/include/visp3/core/vpImageFilter.h:326-336 | the bin search returns the first bin whose cumulative count exceeds the cut, and 0 when no bin does |
| ImageFilter.Levels | modules/core/include/visp3/core/vpImageFilter.h:312-320 | the row-major gradient levels are all below 256 |
| ImageFilter.RowLevels | modules/core/include/visp3/core/vpImageFilter.h:313-319 | a row gives w levels, all below 256 |
| ImageFilter.Histogram | modules/core/include/visp3/core/vpImageFilter.h:323-325 | the histogram of the levels has 256 bins |
| ImageFilter.AddLevelsConcat | modules/core/include/visp3/core/vpImageFilter.h:312-325 | counting the levels row after row gives the histogram of all levels |
| ImageFilter.HistogramCounts | modules/core/include/visp3/core/vpImageFilter.h:323-325 | bin k of the histogram is the number of occurrences of level k |
| ImageFilter.GradientHistogram | modules/core/include/visp3/core/vpImageFilter.h:312-325 | the nested loop over rows and columns builds the histogram of all gradient levels |
| ImageFilter.CountRow | modules/core/include/visp3/core/vpImageFilter.h:313-319 | the column loop adds one count per level of the row |
| ImageFilter.ComputeCannyThreshold | modules/core/include/visp3/core/vpImageFilter.h:311-339 | bon is the first bin whose cumulative count passes upperRatio·w·h (0 if none); the upper threshold is max(bon, 1) and the lower one is lowerRatio·bon, not lowerRatio·upper |
| ImageFilter.HistogramTotal | modules/core/include/visp3/core/vpImageFilter.h:323-331 | the 256 bins add up to the number of pixels |
| ImageFilter.CannyBinAlwaysFound | modules/core/include/visp3/core/vpImageFilter.h:326-336 | on a non-empty image with upperRatio < 1 the bin search always finds a bin |
| ImageFilter.LastBinExceeds | modules/core/include/visp3/core/vpImageFilter.h:329-336 | a cut below the total count is passed at the latest by the last bin |
| ImageFilter.LevelsShape | modules/core/include/visp3/core/vpImageFilter.h:312-320 | w·h levels, each below 256 |
| ImageFilter.CutBelowTotal | modules/core/include/visp3/core/vpImageFilter.h:327 | a ratio below 1 gives a cut below any positive pixel count |
| ImageFilter.CoveredTapsFit | modules/core/include/visp3/core/vpImageFilter.h:459-480 | at a covered output position every kernel tap, correlation or convolution, reads inside the image |
| ImageFilter.KernelPixel | modules/core/include/visp3/core/vpImageFilter.h:461-484 | the double kernel loop accumulates the full kernel sum at one output pixel |
| ImageFilter.KernelRowPixel | modules/core/include/visp3/core/vpImageFilter.h:464-482 | the inner kernel loop accumulates one kernel row |
| ImageFilter.Filter | modules/core/include/visp3/core/vpImageFilter.h:451-488 | the output has the size of the input, holds the kernel sum on pixels in [half_y, H-half_y)×[half_x, W-half_x) and 0 everywhere else |
| ImageFilter.FilterRow | modules/core/include/visp3/core/vpImageFilter.h:460-485 | one output row gets the kernel sums on its covered columns and nothing else changes |
| ImageFilter.Transpose | modules/core/include/visp3/core/vpImageFilter.h:525-543 | the transposed kernel has M^T[a][b] = M[b][a] |
| ImageFilter.FilterUV | modules/core/include/visp3/core/vpImageFilter.h:505-551 | Iu is the image filtered by M and Iv the image filtered by the transposed kernel, both of the input's size |
| ImageFilter.FilterRowBound32 | modules/core/include/visp3/core/vpImageFilter.h:459-474 | the unsigned row bound I.getHeight() - half_size_y wraps to h - half + 2^32 when the image has fewer rows than half the kernel |
| ImageFilter.FilterRowLoopRuns | modules/core/include/visp3/core/vpImageFilter.h:474-480 | as written, a 1-row image with a 5-row kernel enters the row loop and reads kernel tap row 4, outside the image |
| ImageFilter.SmallImageNotCovered | modules/core/include/visp3/core/vpImageFilter.h:448-474 | with the bound taken as a signed value, no pixel of a too-small image is covered, so nothing is read |
| ImageFilter.KernelSumDelta | modules/core/include/visp3/core/vpImageFilter.h:476-484 | the kernel sum of the centred unit kernel is the centre pixel once the centre row is summed |
| ImageFilter.DeltaFilterIsIdentity | modules/core/include/visp3/core/vpImageFilter.h:451-488 | filtering with the centred unit kernel reproduces the input on every covered pixel, for correlation and convolution |
| ImageFilterSeparable.ReflectionsInside | modules/core/include/visp3/core/vpImageFilter.h:666-673 | the left border reflects tap -i to i-c when c ≤ i, the right border reflects tap +i to 2W-c-i-1 when c+i ≥ W, and every tap of every loop of filterX/filterY reads inside the line (also lines 739-746) |
| ImageFilterSeparable.LinePixel | modules/core/include/visp3/core/vpImageFilter.h:610-620 | the pixel helpers' loop over taps 1..half plus the centre term computes the symmetric kernel sum of their side (also lines 659-675, 732-748) |
| ImageFilterSeparable.TapSumNoReflection | modules/core/include/visp3/core/vpImageFilter.h:659-675 | where no tap leaves the line, the border sums equal the interior sum (also lines 732-748) |
| ImageFilterSeparable.BorderHelpersMatchInterior | modules/core/include/visp3/core/vpImageFilter.h:610-620 | filterXLeftBorder for c ≥ half and filterXRightBorder for c+half < W give the interior value (also lines 659-675, 732-748) |
| ImageFilterSeparable.TapSumOfConstantLine | modules/core/include/visp3/core/vpImageFilter.h:616-618 | on a constant line every tap reads the constant, whatever the side and its reflections (also lines 666-673, 739-746) |
| ImageFilterSeparable.ConstantResponse | modules/core/include/visp3/core/vpImageFilter.h:616-619 | the symmetric kernel applied to a constant gives its mass filter[0] + 2·Σ filter[i] times the constant |
| ImageFilterSeparable.ConstantLineFilter | modules/core/include/visp3/core/vpImageFilter.h:610-620 | the reflections keep constants: on a constant line every helper returns the kernel mass times the constant (also lines 659-675, 732-748) |
| ImageFilterSeparable.Column | modules/core/include/visp3/core/vpImageFilter.h:831-841 | the column read by filterY holds I[r][c] at position r |
| ImageFilterSeparable.FilterX | modules/core/include/visp3/core/vpImageFilter.h:587-602 | every row goes through the left-border, interior and right-border loops; the output has the input's size and holds the helper of each column's side |
| ImageFilterSeparable.FilterXSpan | modules/core/include/visp3/core/vpImageFilter.h:592-600 | one column loop fills columns [from, to) of row r and nothing else |
| ImageFilterSeparable.FilterY | modules/core/include/visp3/core/vpImageFilter.h:809-828 | the top-border, interior and bottom-border row loops fill the whole output with the helper of each row's side |
| ImageFilterSeparable.FilterYRows | modules/core/include/visp3/core/vpImageFilter.h:813-827 | one row loop fills rows [from, to) over every column |
| ImageFilterSeparable.SeparableFilter | modules/core/include/visp3/core/vpImageFilter.h:569-576 | the separable filter is filterY applied to the result of filterX |
| ImageFilterSeparable.DerivativePixel | modules/core/include/visp3/core/vpImageFilter.h:381-392 | the kernel derivative sums filter[i]·(I[c+i] - I[c-i]) over i = 1..half |
| ImageFilterSeparable.GetGradX | modules/core/include/visp3/core/vpImageFilter.h:1184-1199 | the gradient is 0 in the half-wide left and right borders and the kernel derivative inside |
| ImageFilterSeparable.GradXRow | modules/core/include/visp3/core/vpImageFilter.h:1189-1197 | the three column loops of one row |
| ImageFilterSeparable.FixedGradXIsKernelGradX | modules/core/include/visp3/core/vpImageFilter.h:349-353 | the fixed 7-tap derivative is the kernel derivative with coefficients 2047, 913, 112 over 8418 (also lines 381-392) |
| ImageFilterSeparable.FixedDerivativeOfRamp | modules/core/include/visp3/core/vpImageFilter.h:349-353 | the fixed derivative is normalised: on a line of slope s it returns s |
| ImageFilterSeparable.GetGradXFixed | modules/core/include/visp3/core/vpImageFilter.h:1166-1182 | the fixed getGradX is 0 in columns < 3 and ≥ W-3 and the fixed derivative elsewhere |
| ImageFilterKernels.ScharrKernelY | modules/core/include/visp3/core/vpImageFilter.h:1311-1330 | only size 1 exists (a 3×3 kernel with scale 1/32); any other size is a dimension error whose message prints the kernel side 2·size + 1 (in unsigned arithmetic) |
| ImageFilterKernels.ScharrKernelX | modules/core/include/visp3/core/vpImageFilter.h:1289-1302 | the X kernel is the transposed Y kernel with the same scale, and the same size error and message |
| ImageFilterKernels.InvPow16 | modules/core/include/visp3/core/vpImageFilter.h:1396-1413 | each further 1/16 factor keeps the scale in (0, 1] |
| ImageFilterKernels.GetSobelKernelY | modules/core/include/visp3/core/vpImageFilter.h:1362-1418 | size 0 or above 20 is a dimension error; otherwise the scale is 1/8, divided by 16 for each size above 1, and the 3×3, 5×5 and 7×7 tables are the precomputed ones |
| ImageFilterKernels.GetSobelKernelX | modules/core/include/visp3/core/vpImageFilter.h:1339-1353 | the same scale and errors as the Y kernel, with the transposed table |
| ImageFilterKernels.ScharrNormalised | modules/core/include/visp3/core/vpImageFilter.h:1315-1326 | the Scharr table is a vertical gradient and 1/32 normalises its response to a unit ramp |
| ImageFilterKernels.SobelNormalised | modules/core/include/visp3/core/vpImageFilter.h:1366-1404 | each precomputed Sobel table is a vertical gradient and its scale normalises the response to a unit ramp |
| ImageFilterKernels.Sobel5x5Response | modules/core/include/visp3/core/vpImageFilter.h:1367-1399 | the 5×5 table scaled by 1/128 has unit ramp response |
| ImageFilterKernels.Sobel7x7Response | modules/core/include/visp3/core/vpImageFilter.h:1369-1404 | the 7×7 table scaled by 1/2048 has unit ramp response |
| CircleHoughParams.CppRem2 | modules/imgproc/include/visp3/imgproc/vpCircleHoughTransform.h:305-315 | the C++ remainder by 2 lies in [0, 2) for a non-negative operand and in (-2, 0] for a negative one, and differs from the operand by an even number |
| CircleHoughParams.OddSizeIsPositiveOdd | modules/imgproc/include/visp3/imgproc/vpCircleHoughTransform.h:305-317 | a kernel size passes the oddness test exactly when it is positive and odd: a negative odd size is refused |
| CircleHoughParams.UIntToInt32 | modules/imgproc/include/visp3/imgproc/vpCircleHoughTransform.h:556-560 | an unsigned aperture up to INT_MAX keeps its value in the int field; a larger one becomes negative, 2^32 below it |
| CircleHoughParams.DefaultParams | modules/imgproc/include/visp3/imgproc/vpCircleHoughTransform.h:118-141 | the default bundle passes every check of the JSON reader, has radius limits 0 and 1000, unbounded centre limits and a merging threshold of 1.5 times the centre distance |
| CircleHoughParams.FullParams | modules/imgproc/include/visp3/imgproc/vpCircleHoughTransform.h:173-215 | the full constructor stores the radius limits in order, the pair being the two given limits whatever their order, and stores the sizes and thresholds as given |
| CircleHoughParams.Merge | modules/imgproc/include/visp3/imgproc/vpCircleHoughTransform.h:298-332 | every key present replaces its field, and the radius limits come out ordered |
| CircleHoughParams.FromJson | modules/imgproc/include/visp3/imgproc/vpCircleHoughTransform.h:298-358 | the reader succeeds exactly when the merged bundle passes every check (odd kernel sizes, positive deviation, vote threshold, centre distance and merging threshold, perfectness in (0, 1], ordered radii), and then returns that bundle |
| CircleHoughParams.ParamsFromJson | modules/imgproc/include/visp3/imgproc/vpCircleHoughTransform.h:271 | a bundle read over the defaults is valid, and a missing kernel size or radius-limit key leaves the defaults 5, 0 and 1000 |
| CircleHoughParams.ToJson | modules/imgproc/include/visp3/imgproc/vpCircleHoughTransform.h:366-391 | the writer emits every key, with the radius limits as one (min, max) pair |
| CircleHoughParams.JsonRoundTrip | modules/imgproc/include/visp3/imgproc/vpCircleHoughTransform.h:298-391 | a valid bundle written to JSON reads back as itself over any bundle |
| CircleHoughParams.JsonRoundTripReordersRadii | modules/imgproc/include/visp3/imgproc/vpCircleHoughTransform.h:330-368 | a bundle whose radius limits are out of order reads back with them swapped |
| CircleHoughParams.EmptyJsonKeepsParams | modules/imgproc/include/visp3/imgproc/vpCircleHoughTransform.h:298-358 | reading an object without keys returns a valid bundle unchanged; with ordered radii it is accepted iff the bundle is valid |
| CircleHoughParams.CircleHoughTransform.Default | modules/imgproc/include/visp3/imgproc/vpCircleHoughTransform.h:397 | the detector starts with the default bundle |
| CircleHoughParams.CircleHoughTransform.constructor | modules/imgproc/include/visp3/imgproc/vpCircleHoughTransform.h:404 | the detector holds the given bundle |
| CircleHoughParams.CircleHoughTransform.LoadJson | modules/imgproc/include/visp3/imgproc/vpCircleHoughTransform.h:489-492 | on success the detector's bundle becomes the one read over the defaults; on an error it is unchanged and the error is the reader's |
| CircleHoughParams.CircleHoughTransform.SetFilteringAndGradientType | modules/imgproc/include/visp3/imgproc/vpCircleHoughTransform.h:521-526 | only the filtering type changes |
| CircleHoughParams.CircleHoughTransform.SetGaussianParameters | modules/imgproc/include/visp3/imgproc/vpCircleHoughTransform.h:535-549 | both values are stored even when refused; the call succeeds iff the size is positive and odd and the deviation positive |
| CircleHoughParams.CircleHoughTransform.SetGradientFilterAperture | modules/imgproc/include/visp3/imgproc/vpCircleHoughTransform.h:556-565 | the wrapped size is stored; the call succeeds iff the unsigned size is odd and fits in an int |
| CircleHoughParams.CircleHoughTransform.SetCannyBackend | modules/imgproc/include/visp3/imgproc/vpCircleHoughTransform.h:572-575 | only the backend changes |
| CircleHoughParams.CircleHoughTransform.SetCannyThreshold | modules/imgproc/include/visp3/imgproc/vpCircleHoughTransform.h:586-590 | only the two thresholds change, without a check |
| CircleHoughParams.CircleHoughTransform.SetCannyThresholdRatio | modules/imgproc/include/visp3/imgproc/vpCircleHoughTransform.h:601-606 | only the two ratios change, without a check |
| CircleHoughParams.CircleHoughTransform.SetCircleCenterMinDist | modules/imgproc/include/visp3/imgproc/vpCircleHoughTransform.h:614-621 | the distance is stored; the call succeeds iff it is positive |
| CircleHoughParams.CircleHoughTransform.SetCircleCenterBoundingBox | modules/imgproc/include/visp3/imgproc/vpCircleHoughTransform.h:635-642 | the two limit pairs are stored as given |
| CircleHoughParams.CircleHoughTransform.SetCircleMinRadius | modules/imgproc/include/visp3/imgproc/vpCircleHoughTransform.h:648-651 | the radius converted to unsigned (truncated toward zero, 0 on (-1, 0)) is stored as the minimum, which can end above the maximum |
| CircleHoughParams.CircleHoughTransform.SetCircleMaxRadius | modules/imgproc/include/visp3/imgproc/vpCircleHoughTransform.h:657-660 | the radius converted to unsigned (truncated toward zero, 0 on (-1, 0)) is stored as the maximum, which can end below the minimum |
| CircleHoughParams.RadiusToUInt | modules/imgproc/include/visp3/imgproc/vpCircleHoughTransform.h:648-660 | the float-to-unsigned cast: 0 for radii in (-1, 0], otherwise the integer part, within [0, 2^32) |
| CircleHoughParams.CircleHoughTransform.SetCirclePerfectness | modules/imgproc/include/visp3/imgproc/vpCircleHoughTransform.h:666-672 | the value is stored; the call succeeds iff it is in (0, 1] |
| CircleHoughParams.CircleHoughTransform.SetCenterComputationParameters | modules/imgproc/include/visp3/imgproc/vpCircleHoughTransform.h:680-688 | both values are stored; the call succeeds iff the vote threshold is positive |
| CircleHoughParams.CircleHoughTransform.SetRadiusRatioThreshold | modules/imgproc/include/visp3/imgproc/vpCircleHoughTransform.h:695-702 | the value is stored as the circle probability threshold; the call succeeds iff it is positive |
| CircleHoughParams.CircleHoughTransform.SetRadiusMergingThresholds | modules/imgproc/include/visp3/imgproc/vpCircleHoughTransform.h:710-717 | the value is stored; the call succeeds iff it is positive |
| StatisticalTest.MeanDriftTypeToString | modules/core/src/math/misc/vpStatisticalTestAbstract.cpp:42-60 | every drift type has a non-empty name starting with a space |
| StatisticalTest.MeanDriftTypeNamesDistinct | modules/core/src/math/misc/vpStatisticalTestAbstract.cpp:42-60 | distinct drift types have distinct names |
| StatisticalTest.SumSquaredDiff | modules/core/src/math/misc/vpStatisticalTestAbstract.cpp:77-81 | the sum of squared deviations is never negative |
| StatisticalTest.SquaredDeviationSum | modules/core/src/math/misc/vpStatisticalTestAbstract.cpp:77-81 | the loop over the warm-up buffer returns the sum of the squared deviations of all its entries from the mean |
| StatisticalTest.StoredVarianceAsWritten | modules/core/src/math/misc/vpStatisticalTestAbstract.cpp:82-88 | as written: with a minimum set, the stored deviation is the larger of the previous stored one and the minimum, whatever the new estimate |
| StatisticalTest.StoredVarianceAsWrittenIgnoresEstimate | modules/core/src/math/misc/vpStatisticalTestAbstract.cpp:82-88 | a concrete warm-up where the written rule stores the minimum 0.5 although the estimate is 1, while the corrected rule keeps the estimate |
| StatisticalTest.StoredVariance | modules/core/src/math/misc/vpStatisticalTestAbstract.cpp:82-88 | corrected: the stored variance is the estimate or the squared minimum, and is at least each of them |
| StatisticalTest.NextSums | modules/core/src/math/misc/vpStatisticalTestHinkley.cpp:137-159 | one step adds the deviation plus delta/2 to S and minus delta/2 to T; M is the running maximum of S and N the running minimum of T |
| StatisticalTest.RunSumsTrackExtremes | modules/core/src/math/misc/vpStatisticalTestHinkley.cpp:137-159 | after any run of signals from zero, S and T are the cumulative sums and M (N) is exactly the largest (smallest) of their prefix values |
| StatisticalTest.DownwardDriftIffDrop | modules/core/src/math/misc/vpStatisticalTestHinkley.cpp:161-168 | a downward drift is reported iff S has fallen by more than alpha below one of its earlier values or 0 |
| StatisticalTest.UpwardDriftIffRise | modules/core/src/math/misc/vpStatisticalTestHinkley.cpp:170-177 | an upward drift is reported iff T has risen by more than alpha above one of its earlier values or 0 |
| StatisticalTest.EqualExtremesNoDrift | modules/core/src/math/misc/vpStatisticalTestHinkley.cpp:124-135 | exactly equal extremes pass the epsilon test of "no drift begun" |
| StatisticalTest.RunningMeanIsMean | modules/core/src/math/misc/vpStatisticalTestHinkley.cpp:124-135 | the running-mean update turns the mean of n signals into the mean of those n signals and the new one |
| StatisticalTest.HinkleyTest.constructor | modules/core/src/math/misc/vpStatisticalTestHinkley.cpp:52-62 | alpha 0.2, delta/2 0.1, a 30-signal warm-up buffer, limits equal to alpha, nothing computed |
| StatisticalTest.HinkleyTest.WithParameters | modules/core/src/math/misc/vpStatisticalTestHinkley.cpp:64-74 | the given alpha, half the given delta and a warm-up buffer of the given length |
| StatisticalTest.HinkleyTest.AbstractInit | modules/core/src/math/misc/vpStatisticalTestAbstract.cpp:121-135 | the abstract reset: no statistics, zero count, limits, mean, deviation, sum and warm-up length, and no buffer; the minimum deviation is kept |
| StatisticalTest.HinkleyTest.SetNbSamplesForStat | modules/core/src/math/misc/vpStatisticalTestAbstract.cpp:157-164 | a fresh buffer of the new length replaces the old one and only the warm-up length changes |
| StatisticalTest.HinkleyTest.SetAlpha | modules/core/src/math/misc/vpStatisticalTestHinkley.cpp:117-122 | alpha and both limits take the new value |
| StatisticalTest.HinkleyTest.SetDelta | modules/core/src/math/misc/vpStatisticalTestHinkley.cpp:115 | delta/2 becomes half the new delta |
| StatisticalTest.HinkleyTest.Init | modules/core/src/math/misc/vpStatisticalTestHinkley.cpp:95-106 | the reset keeps alpha, delta and the warm-up length, zeroes the sums and count, and sets the limits to alpha |
| StatisticalTest.HinkleyTest.InitWithMean | modules/core/src/math/misc/vpStatisticalTestHinkley.cpp:108-113 | the reset with a known mean: statistics marked computed, with that mean |
| StatisticalTest.HinkleyTest.InitWithParameters | modules/core/src/math/misc/vpStatisticalTestHinkley.cpp:76-82 | the reset with new alpha, delta and warm-up length |
| StatisticalTest.HinkleyTest.InitWithParametersAndMean | modules/core/src/math/misc/vpStatisticalTestHinkley.cpp:84-91 | the reset with new alpha and delta and a known mean |
| StatisticalTest.HinkleyTest.UpdateStatistics | modules/core/src/math/misc/vpStatisticalTestAbstract.cpp:67-93 | corrected (see Findings): the signal is stored at the current count, counted and summed; once the count reaches the warm-up length the mean is the average of the sum, the variance is the corrected StoredVariance of the fresh estimate, and the flag is raised; the result is the flag |
| StatisticalTest.HinkleyTest.UpdateTestSignals | modules/core/src/math/misc/vpStatisticalTestHinkley.cpp:179-189 | the new state is TestSignalsUpdated: the sums take one step with the signal's deviation from the mean, the count grows by one, and the mean becomes the running mean only while no drift has begun; M never falls and N never rises |
| StatisticalTest.HinkleyTest.DetectDownwardMeanShift | modules/core/src/math/misc/vpStatisticalTestHinkley.cpp:161-168 | downward iff M - S exceeds alpha, never upward |
| StatisticalTest.HinkleyTest.DetectUpwardMeanShift | modules/core/src/math/misc/vpStatisticalTestHinkley.cpp:170-177 | upward iff T - N exceeds alpha, never downward |
| StatisticalTest.HinkleyTest.TestDownUpwardMeanShift | modules/core/src/math/misc/vpStatisticalTestAbstract.cpp:166-186 | the whole new state: during the warm-up no drift, the signal stored at the old count and the state StatisticsUpdated (count, sum, and at the end of the warm-up mean, variance and flag); afterwards the buffer is unchanged, the state is TestSignalsUpdated, and a downward drift takes precedence over an upward one |
| StatisticalTest.HinkleyTest.TestDownwardMeanShift | modules/core/src/math/misc/vpStatisticalTestAbstract.cpp:188-198 | the same new state in each branch as TestDownUpwardMeanShift, reporting only a downward drift, iff M - S exceeds alpha |
| StatisticalTest.HinkleyTest.TestUpwardMeanShift | modules/core/src/math/misc/vpStatisticalTestAbstract.cpp:200-210 | the same new state in each branch as TestDownUpwardMeanShift, reporting only an upward drift, iff T - N exceeds alpha |
| StatisticalTest.HinkleyTest.Assign | modules/core/src/math/misc/vpStatisticalTestAbstract.cpp:137-155 | assignment copies the flag, count, limits, mean, warm-up length, alpha, delta and sums, gives a fresh uncopied buffer, resets deviation and sum and keeps the minimum deviation |
| StatisticalTest.StatisticsUpdated | modules/core/src/math/misc/vpStatisticalTestAbstract.cpp:67-93 | corrected (see Findings): the count grows by one and the sum by the signal; the sums, alpha, delta/2 and the limits are unchanged; the statistics are computed iff they were or the count reaches the warm-up length |
| StatisticalTest.TestSignalsUpdated | modules/core/src/math/misc/vpStatisticalTestHinkley.cpp:179-189 | the count grows by one, M never falls and N never rises, M bounds S and N bounds T, and the flag, variance, alpha and delta/2 are unchanged |
| ParticleFilter.Scale | modules/core/src/math/misc/vpParticleFilter.cpp:55-57 | a particle times a weight is the vector of the products, of the particle's size |
| ParticleFilter.Add | modules/core/include/visp3/core/vpParticleFilter.h:290-294 | simpleAdd is the componentwise sum of two vectors of one size |
| ParticleFilter.SimpleMean | modules/core/src/math/misc/vpParticleFilter.cpp:49-60 | a dimension error exactly when there is no particle or some particle's dimension differs from the first one's; otherwise a vector of the particles' dimension whose every component is the weighted sum of that component over all particles |
| ParticleFilter.MeanOfIdenticalParticles | modules/core/src/math/misc/vpParticleFilter.cpp:49-60 | when every particle is the same vector and the weights sum to 1, the mean is that vector |
| ParticleFilter.SimpleResamplingCheck | modules/core/src/math/misc/vpParticleFilter.cpp:62-73 | the loop sums the first N weights and their squares, and the result is the written condition on those sums |
| ParticleFilter.AsWrittenAlwaysResamples | modules/core/src/math/misc/vpParticleFilter.cpp:70-72 | as written: for two or more non-negative weights with a non-zero sum, the check always asks to resample |
| ParticleFilter.AsWrittenResamplesUniformPair | modules/core/src/math/misc/vpParticleFilter.cpp:70-72 | the weights [0.5, 0.5] make the written check resample while the documented condition does not |
| ParticleFilter.UniformWeightsNeverResample | modules/core/src/math/misc/vpParticleFilter.cpp:62-73 | corrected (effective sample size S²/Q against N/2): equal non-zero weights never trigger resampling |
| ParticleFilter.DegenerateWeightsResample | modules/core/src/math/misc/vpParticleFilter.cpp:62-73 | corrected: with three or more particles and all weight on the first one, resampling is triggered |
| ParticleFilter.SquareSumBound | modules/core/src/math/misc/vpParticleFilter.cpp:66-69 | for non-negative weights the sum of squares is at most the square of the sum |
| ParticleFilter.FirstAbove | modules/core/src/math/misc/vpParticleFilter.cpp:86-92 | the scan returns the first index whose cumulative weight exceeds the draw, or 0 when none does |
| ParticleFilter.DrawFindsItsInterval | modules/core/src/math/misc/vpParticleFilter.cpp:84-93 | a draw in [0, total weight) selects the particle whose cumulative interval contains it, and that particle has positive weight |
| ParticleFilter.SimpleImportanceResampling | modules/core/src/math/misc/vpParticleFilter.cpp:75-106 | N particles come back, the i-th being the particle drawn by the i-th uniform value, and every new weight is 1/N |
| ParticleFilter.Filter.SetProcessFunction | modules/core/include/visp3/core/vpParticleFilter.h:229-234 | the process function is stored and selected, the command function deselected, nothing else changes |
| ParticleFilter.Filter.SetCommandStateFunction | modules/core/include/visp3/core/vpParticleFilter.h:243-248 | the command function is stored and selected, the process function deselected, nothing else changes |
| ParticleFilter.Filter.Predict | modules/core/src/math/misc/vpParticleFilter.cpp:108-121 | each particle is moved by the command function when selected, else by the process function; with neither selected and a particle present the call fails before any particle moves; weights are unchanged |
| ParticleFilter.Filter.Update | modules/core/src/math/misc/vpParticleFilter.cpp:123-128 | each weight becomes the likelihood of its particle for the measurement; the particles are unchanged |
| ParticleFilter.WeightSums | modules/core/src/math/misc/vpParticleFilter.cpp:64-69 | the loop yields the sum of the first N weights and the sum of their squares |
| ParticleFilter.ResamplingCheck | modules/core/src/math/misc/vpParticleFilter.cpp:62-73 | corrected: resampling is asked iff the sum of squares is positive and the effective sample size S²/Q is below N/2 |
| PointMap.IdentityKeepsPoints | modules/tracker/rbt/src/vo/vpPointMap.cpp:29-33 | the identity pose leaves every map point where it is |
| PointMap.PureTranslationShifts | modules/tracker/rbt/src/vo/vpPointMap.cpp:29-33 | a pose with identity rotation only shifts a point by its translation |
| PointMap.Normalize | modules/tracker/rbt/src/vo/vpPointMap.cpp:42-43 | normalised coordinates exist iff Z is not 0, and then (x·Z, y·Z) gives back (X, Y) |
| PointMap.PixelConversionInvertible | modules/tracker/rbt/src/vo/vpPointMap.cpp:55 | with non-zero focal ratios the undistorted pixel conversion is undone by (u - u0)/px, (v - v0)/py |
| PointMap.Gather | modules/tracker/rbt/src/vo/vpPointMap.cpp:7-12 | one row per index, the i-th being the map row named by the i-th index |
| PointMap.OutlierRowsExactly | modules/tracker/rbt/include/visp3/rbt/vpPointMap.h:38-43 | the outlier rows are ascending and are exactly the rows whose squared pixel error reaches the squared threshold |
| PointMap.VisibleRowsExactly | modules/tracker/rbt/src/vo/vpPointMap.cpp:61-71 | the visible rows are ascending and are exactly the rows whose pixel lies in the w×h image and whose depth is within the allowed error |
| PointMap.UnmarkedRows | modules/tracker/rbt/include/visp3/rbt/vpPointMap.h:48 | n rows of which a list of distinct in-range indices is marked leave n minus that many rows |
| PointMap.PlanShape | modules/tracker/rbt/include/visp3/rbt/vpPointMap.h:46-108 | corrected update plan: rows split into ascending removed and kept lists, every listed row removed, min(excess, unlisted) further rows dropped, each dropped row older than every kept row |
| PointMap.UpdatedSize | modules/tracker/rbt/include/visp3/rbt/vpPointMap.h:48-58 | corrected: after an update the map holds min(rows - removed + added, maxPoints) rows |
| PointMap.AsWrittenSizeOvercounts | modules/tracker/rbt/include/visp3/rbt/vpPointMap.h:48-58 | as written, whenever the new points fit the new size adds their coordinate count, two rows per new point more than the update fills |
| PointMap.AsWrittenSizeCountsCoordinates | modules/tracker/rbt/include/visp3/rbt/vpPointMap.h:48-78 | adding one point to a two-row map sizes the new matrix at five rows where three are filled |
| PointMap.AsWrittenStartDropsTooFew | modules/tracker/rbt/include/visp3/rbt/vpPointMap.h:61-72 | as written, the scan for the oldest rows to drop stops at index shouldBeRemoved, so with row 0 listed one row too few is dropped; with no listed row it reads past the list's end |
| PointMap.AsWrittenRemovedNotSorted | modules/tracker/rbt/include/visp3/rbt/vpPointMap.h:73-85 | as written, pushing the starting indices to the front one at a time reverses them, so the removed list [1, 0, 3] is unsorted and the copy loop underflows |
| PointMap.PointMap.constructor | modules/tracker/rbt/include/visp3/rbt/vpPointMap.h:16-22 | an empty map with the given maximum size, minimum new-point distance 0.01, maximum depth error 0.001 and outlier threshold 50 |
| PointMap.PointMap.GetPoints | modules/tracker/rbt/src/vo/vpPointMap.cpp:4-13 | one row per index, the i-th being the map row named by the i-th index |
| PointMap.PointMap.Project | modules/tracker/rbt/src/vo/vpPointMap.cpp:15-35 | row i is R·X + t for the map row named by index i; the identity pose returns the gathered rows |
| PointMap.PointMap.ProjectNormalized | modules/tracker/rbt/src/vo/vpPointMap.cpp:37-45 | the camera-frame rows as above, and row i of xs is their normalised coordinates |
| PointMap.PointMap.ProjectToPixels | modules/tracker/rbt/src/vo/vpPointMap.cpp:47-57 | a camera with distortion is refused; otherwise the camera-frame rows, their normalised coordinates and the pixel of each |
| PointMap.PointMap.GetVisiblePoints | modules/tracker/rbt/src/vo/vpPointMap.cpp:59-72 | appends to the given list exactly the visible rows, in ascending order |
| PointMap.PointMap.GetOutliers | modules/tracker/rbt/include/visp3/rbt/vpPointMap.h:32-44 | a dimension error iff the two matrices differ in row count; otherwise appends the original index of every outlier row, in row order |
| PointMap.PointMap.UpdatePoints | modules/tracker/rbt/include/visp3/rbt/vpPointMap.h:46-108 | corrected update: returns the removed rows of the plan in ascending order, and the map becomes the kept rows in their old order followed by the new points |
| PointMap.OutlierRows | modules/tracker/rbt/include/visp3/rbt/vpPointMap.h:38-43 | the outlier rows below n are row indices below n |
| PointMap.VisibleRows | modules/tracker/rbt/src/vo/vpPointMap.cpp:61-71 | the visible rows below n are row indices below n |
| PointMap.PlanUpTo | modules/tracker/rbt/include/visp3/rbt/vpPointMap.h:56-80 | the corrected plan over the first k rows keeps only rows below k |
| PointMap.StartingIndicesOfFourRows | modules/tracker/rbt/include/visp3/rbt/vpPointMap.h:61-72 | as written, four rows with row 3 listed and two more to drop give starting indices [0, 1] |
| PointMap.PushFrontReverses | modules/tracker/rbt/include/visp3/rbt/vpPointMap.h:73-75 | as written, pushing [0, 1] to the front of [3] gives the unsorted [1, 0, 3] |
| PointMap.PlanOfFourRows | modules/tracker/rbt/include/visp3/rbt/vpPointMap.h:56-80 | the corrected plan for the same four rows removes [0, 1, 3] in ascending order |
| PointMap.NewSizeAsWritten | modules/tracker/rbt/include/visp3/rbt/vpPointMap.h:48 | as written, the new size exceeds rows − removed + new points by exactly two rows per new point, because it adds the coordinate count |
| PointMap.StartingIndicesAsWritten | modules/tracker/rbt/include/visp3/rbt/vpPointMap.h:61-72 | as written, the scan either reads past the end of the removed list (None, always so when the list is empty and a row must go) or gives ascending rows below shouldBeRemoved, none of them in the sorted removed list |
| PointMap.PushFrontAll | modules/tracker/rbt/include/visp3/rbt/vpPointMap.h:73-75 | pushing each starting index to the front puts them before the list in reverse order and keeps the list after them |
| BundleAdjustment.Advance | modules/tracker/rbt/include/visp3/rbt/vpRBBundleAdjustment.h:151-153 | the inner scan stops at the first observation from the cursor on that sees the point, or at the end |
| BundleAdjustment.MatchedBounds | modules/tracker/rbt/include/visp3/rbt/vpRBBundleAdjustment.h:150-157 | at most one observation per requested point is selected, each seeing a requested point |
| BundleAdjustment.MatchedOrder | modules/tracker/rbt/include/visp3/rbt/vpRBBundleAdjustment.h:150-157 | the selected observations are non-decreasing, and increasing when no point is requested twice |
| BundleAdjustment.ObservationsOfExactly | modules/tracker/rbt/include/visp3/rbt/vpRBBundleAdjustment.h:145-158 | the reference selection by membership: ascending, and exactly the observations whose point is requested |
| BundleAdjustment.AsWrittenMissesObservation | modules/tracker/rbt/include/visp3/rbt/vpRBBundleAdjustment.h:150-157 | the loop differs from the reference selection: with observations of points [1, 3] and requests [2, 3], the unfound point 2 leaves the cursor at the end and the observation of point 3 is missed |
| BundleAdjustment.AsWrittenMissesPointColumns | modules/tracker/rbt/src/vo/vpRBBundleAdjustment.cpp:73-76 | as written, the y and z columns of a point block are never marked although the residual depends on them |
| BundleAdjustment.Insert | modules/tracker/rbt/src/vo/vpRBBundleAdjustment.cpp:89 | inserting into an ordered set keeps it ascending and without repetition, and adds exactly the new element |
| BundleAdjustment.RangeShape | modules/tracker/rbt/src/vo/vpRBBundleAdjustment.cpp:98 | the slots are exactly 0 .. n-1 |
| BundleAdjustment.UsedPointIndices | modules/tracker/rbt/src/vo/vpRBBundleAdjustment.cpp:85-93 | the points seen by any camera, collected into an ascending sequence holding each exactly once |
| BundleAdjustment.NumberInOrder | modules/tracker/rbt/src/vo/vpRBBundleAdjustment.cpp:95-102 | numbering an ascending sequence gives point-to-slot and slot-to-point maps that are mutual inverses, with slots 0 .. n-1 in point order |
| BundleAdjustment.SlotsOfAscending | modules/tracker/rbt/src/vo/vpRBBundleAdjustment.cpp:98-102 | numbering an ascending sequence in order gives inverse maps with ordered slots |
| BundleAdjustment.MapIndexView.constructor | modules/tracker/rbt/include/visp3/rbt/vpRBBundleAdjustment.h:189 | a view with no point |
| BundleAdjustment.MapIndexView.Update | modules/tracker/rbt/src/vo/vpRBBundleAdjustment.cpp:83-103 | afterwards the view holds exactly the points seen by the cameras, with slots that invert each other and follow the point order |
| BundleAdjustment.MapIndexView.NumPoints | modules/tracker/rbt/include/visp3/rbt/vpRBBundleAdjustment.h:193 | the number of points in the view; in a consistent view the slots are exactly 0 .. NumPoints()-1 |
| BundleAdjustment.CameraData.SetUsedObservationsFrom3DIndices | modules/tracker/rbt/include/visp3/rbt/vpRBBundleAdjustment.h:145-158 | only the used observations change; they are the two-pointer selection: at most one per requested point, each seeing a requested point, non-decreasing, increasing for distinct requests |
| BundleAdjustment.CameraData.ResidualDependsOnPattern | modules/tracker/rbt/src/vo/vpRBBundleAdjustment.cpp:43-57 | a residual reads only the camera's pose block and the three columns of its point: two parameter vectors agreeing there give the same residual |
| BundleAdjustment.CameraData.Error | modules/tracker/rbt/src/vo/vpRBBundleAdjustment.cpp:32-60 | exactly the residuals [start, start + 2·used) are written, two per observation (projected x and y minus the observation), the rest of e unchanged |
| BundleAdjustment.CameraData.FillJacobianSparsity | modules/tracker/rbt/src/vo/vpRBBundleAdjustment.cpp:62-80 | corrected (point column offset added): each residual pair gets its camera's 6 pose columns and the 3 columns of its point block marked, exactly the columns its residual depends on; every other entry unchanged |
| BundleAdjustment.BundleAdjustment.NumResiduals | modules/tracker/rbt/include/visp3/rbt/vpRBBundleAdjustment.h:125-134 | the loop sums two residuals per used observation over all cameras |
| BundleAdjustment.BundleAdjustment.NumCameras | modules/tracker/rbt/include/visp3/rbt/vpRBBundleAdjustment.h:122 | one per camera |
| BundleAdjustment.BundleAdjustment.NumPoints3d | modules/tracker/rbt/include/visp3/rbt/vpRBBundleAdjustment.h:123 | the points of the view; in a consistent view the slot count, slots 0 .. n-1 |
| BundleAdjustment.BundleAdjustment.NumParameters | modules/tracker/rbt/include/visp3/rbt/vpRBBundleAdjustment.h:124 | 6 parameters per camera and 3 per view slot, the length AsParamVector fills |
| BundleAdjustment.CameraData.NumResiduals | modules/tracker/rbt/include/visp3/rbt/vpRBBundleAdjustment.h:144 | two residuals per used observation |
| BundleAdjustment.BundleAdjustment.AsParamVector | modules/tracker/rbt/src/vo/vpRBBundleAdjustment.cpp:4-29 | a vector of 6 per camera plus 3 per view slot: camera c's block is its pose, and slot v's block is the coordinates of the map point the slot stands for |
| BundleAdjustment.BundleAdjustment.PointBlockOfPoint | modules/tracker/rbt/src/vo/vpRBBundleAdjustment.cpp:19-28 | in a vector so laid out, the block of the slot of a map point holds that point's coordinates |
| BundleAdjustment.ObservationsOf | modules/tracker/rbt/include/visp3/rbt/vpRBBundleAdjustment.h:145-158 | the observations among the first n whose point is requested are positions below n |
| KltTracker.KeptLength | modules/tracker/klt/src/vpKltOpencv.cpp:172-179 | erasing the lost entries leaves exactly as many entries as there are survivors |
| KltTracker.KeptPairs | modules/tracker/klt/src/vpKltOpencv.cpp:172-179 | erasing the lost entries of two parallel vectors separately keeps them paired, as erasing from the vector of pairs would |
| KltTracker.KeptMembers | modules/tracker/klt/src/vpKltOpencv.cpp:172-179 | an entry survives exactly when it sits at a position whose status is not 0 |
| KltTracker.RemoveLost | modules/tracker/klt/src/vpKltOpencv.cpp:172-179 | the reverse erase loop leaves in each of the three vectors exactly the entries whose status is not 0, in their order |
| KltTracker.EraseStep | modules/tracker/klt/src/vpKltOpencv.cpp:173-177 | one step of the reverse loop, erasing a lost position or keeping a tracked one, extends the processed suffix by one position |
| KltTracker.Numbering | modules/tracker/klt/src/vpKltOpencv.cpp:130-133 | the ids given to features without ids are 0, 1, ..., n-1 |
| KltTracker.KltOpencv.constructor | modules/tracker/klt/src/vpKltOpencv.cpp:57-63 | no features, ids counted from 0, no initial guess |
| KltTracker.KltOpencv.InitTrackingDetected | modules/tracker/klt/src/vpKltOpencv.cpp:114-136 | both point lists cleared, the detected corners become the current points, numbered from 0, with the counter one past the last |
| KltTracker.KltOpencv.InitTracking | modules/tracker/klt/src/vpKltOpencv.cpp:470-481 | the given points become the current points, numbered from 0, and the initial guess is cleared |
| KltTracker.KltOpencv.InitTrackingWithIds | modules/tracker/klt/src/vpKltOpencv.cpp:483-504 | with as many ids as points the ids are kept and the counter is one past max(0, largest id); otherwise the points are numbered from 0 |
| KltTracker.KltOpencv.AddFeature | modules/tracker/klt/src/vpKltOpencv.cpp:513-552 | the point is appended with the counter's value as id and the counter advances, so the new id differs from every id already present |
| KltTracker.KltOpencv.AddFeatureWithId | modules/tracker/klt/src/vpKltOpencv.cpp:532-539 | the point and id are appended as given, and the counter moves past the id when it was not already |
| KltTracker.KltOpencv.GetFeature | modules/tracker/klt/src/vpKltOpencv.cpp:195-204 | the id and position at an index below the feature count; any other index (negative ones wrap to huge unsigned values) is the error "Feature [index] doesn't exist" |
| KltTracker.KltOpencv.SuppressFeature | modules/tracker/klt/src/vpKltOpencv.cpp:558-566 | the point and id at a valid index are erased and nothing else changes; an invalid index is the error "Feature [index] doesn't exist" with nothing changed |
| KltTracker.KltOpencv.SetInitialGuess | modules/tracker/klt/src/vpKltOpencv.cpp:419-430 | guesses of the feature count replace the current points and set the flag; any other count is an error naming both sizes, with nothing changed |
| KltTracker.KltOpencv.SetInitialGuessWithIds | modules/tracker/klt/src/vpKltOpencv.cpp:446-460 | when guesses and initial points agree in count, they and the ids replace the previous points, current points and ids, and the flag is set; otherwise an error naming both sizes, with nothing changed |
| Decimal.NatToString | modules/tracker/klt/src/vpKltOpencv.cpp:422-425 | `%d` of a size: a non-empty string of decimal digits, one digit exactly below 10 |
| Decimal.NatToStringRoundTrip | modules/tracker/klt/src/vpKltOpencv.cpp:422-425 | the printed digits read back as the number |
| Decimal.IntToString | modules/tracker/klt/src/vpKltOpencv.cpp:198 | `%d` of an index: a minus sign exactly for a negative value |
| KltTracker.KltOpencv.Track | modules/tracker/klt/src/vpKltOpencv.cpp:143-180 | no current point is an error with nothing changed; otherwise the flow starts from the guess or the swapped points, the flag is cleared, and the previous points, current points and ids keep exactly their tracked entries |
| KltTracker.NumberFromZero | modules/tracker/klt/src/vpKltOpencv.cpp:130-133 | the numbering loop yields 0 .. n-1 and leaves the counter at n (also lines 475-478) |
| KltTracker.CopyIds | modules/tracker/klt/src/vpKltOpencv.cpp:494-501 | the copy loop yields the ids as given and the counter one past max(0, largest id) |
| KltTracker.MaxIdBounds | modules/tracker/klt/src/vpKltOpencv.cpp:494-501 | max(0, largest id) bounds every id and is 0 or one of them |
| KltTracker.KeptFrom | modules/tracker/klt/src/vpKltOpencv.cpp:172-179 | erasing the lost entries from position i on leaves at most the entries from i on |
| SilhouetteSettings.TakesWhenAllWanted | modules/tracker/rbt/include/visp3/rbt/vpRBSilhouettePointsExtractionSettings.h:82 | a draw below 1 always takes a position when every position left is wanted |
| SilhouetteSettings.SelectedShape | modules/tracker/rbt/include/visp3/rbt/vpRBSilhouettePointsExtractionSettings.h:79-88 | with draws in [0, 1), selection sampling takes exactly the positions still wanted, all in the scanned range and strictly increasing |
| SilhouetteSettings.SampleWithoutReplacement | modules/tracker/rbt/include/visp3/rbt/vpRBSilhouettePointsExtractionSettings.h:75-89 | min(count, vectorSize) slots are filled with strictly increasing indices below vectorSize, the positions the selection test takes, the loop stopping once every slot is filled |
| SilhouetteSettings.SampleStepAsWritten | modules/tracker/rbt/include/visp3/rbt/vpRBSilhouettePointsExtractionSettings.h:109-115 | as written: the call fails iff the stored step is 0, whatever the argument, and otherwise stores the argument |
| SilhouetteSettings.AsWrittenAcceptsZeroStep | modules/tracker/rbt/include/visp3/rbt/vpRBSilhouettePointsExtractionSettings.h:111 | as written, a 0 step is accepted from a valid state and then every later call is refused; the corrected check does the opposite |
| SilhouetteSettings.SampleStep | modules/tracker/rbt/include/visp3/rbt/vpRBSilhouettePointsExtractionSettings.h:109-115 | corrected: the call fails iff the argument is 0, and otherwise stores it |
| SilhouetteSettings.CheckedStepStaysPositive | modules/tracker/rbt/include/visp3/rbt/vpRBSilhouettePointsExtractionSettings.h:109-115 | corrected: a positive step stays positive through any sequence of setSampleStep calls |
| SilhouetteSettings.ExtractionSettings.SetSampleStep | modules/tracker/rbt/include/visp3/rbt/vpRBSilhouettePointsExtractionSettings.h:109-115 | corrected: a 0 step is refused and leaves the stored step; any other step is stored; nothing else changes |
| SilhouetteSettings.ExtractionSettings.LoadJson | modules/tracker/rbt/include/visp3/rbt/vpRBSilhouettePointsExtractionSettings.h:174-185 | corrected (see Findings; it uses the corrected setSampleStep): each of the five fields read before the first missing key holds its JSON value and every later one keeps its old value; the threshold is relative iff its type is "relative"; a missing key gives the key error, a sampling rate that converts to 0 as an unsigned int (ToUnsigned) the step error with the step unchanged, and otherwise the load succeeds with the converted rate stored as the step |
| SilhouetteSettings.ToUnsigned | modules/tracker/rbt/include/visp3/rbt/vpRBSilhouettePointsExtractionSettings.h:184 | the JSON sampling rate passed to `setSampleStep(unsigned int)` is stored modulo 2^32: below 2^32, congruent to the rate, and the rate itself when it is already in range |
| SilhouetteSettings.KeysPresent | modules/tracker/rbt/include/visp3/rbt/vpRBSilhouettePointsExtractionSettings.h:174-185 | how many of the five keys from_json reads are present before the first missing one, each count exactly characterised by which keys are present |
| VisualOdometryUtils.TestDistanceEdge | modules/tracker/rbt/src/vo/vpRBVisualOdometryUtils.cpp:26-34 | the edge test passes iff every silhouette point is at squared distance at least the threshold |
| VisualOdometryUtils.SideRowsExactly | modules/tracker/rbt/src/vo/vpRBVisualOdometryUtils.cpp:36-59 | the indices on each side are ascending and are exactly the keypoints classified to that side |
| VisualOdometryUtils.ComputeIndicesObjectAndEnvironment | modules/tracker/rbt/src/vo/vpRBVisualOdometryUtils.cpp:14-60 | one pass yields the object list and the environment list of the classification, with the squared minimum edge distances as thresholds |
| VisualOdometryUtils.Partition | modules/tracker/rbt/src/vo/vpRBVisualOdometryUtils.cpp:36-59 | the two lists are ascending and disjoint, and hold only keypoints inside the image |
| VisualOdometryUtils.Membership | modules/tracker/rbt/src/vo/vpRBVisualOdometryUtils.cpp:36-57 | an in-image keypoint is an object keypoint iff its depth is positive, its mask value exceeds the bound when the mask is used, and it clears the object edge threshold; an environment keypoint iff its depth is not positive and it clears the environment threshold |
| VisualOdometryUtils.SideRows | modules/tracker/rbt/src/vo/vpRBVisualOdometryUtils.cpp:36-59 | the keypoints below n on one side are indices below n |
| BresenhamLine.SwitchToOctantZeroFrom | tutorial/imgproc/flood-fill/tutorial-flood-fill.cpp:21-63 | an octant value outside 0..7 takes the default case, which leaves the point as copied; SwitchesAreReflections and SwitchRoundTrip state what the eight cases do |
| BresenhamLine.SwitchFromOctantZeroTo | tutorial/imgproc/flood-fill/tutorial-flood-fill.cpp:65-107 | an octant value outside 0..7 takes the default case and leaves the point as copied; SwitchesAreReflections and SwitchRoundTrip state what the eight cases do |
| BresenhamLine.SwitchesAreReflections | tutorial/imgproc/flood-fill/tutorial-flood-fill.cpp:21-107 | each switch is a reflection across an axis or a diagonal: the point keeps the absolute values of its coordinates, possibly swapped |
| BresenhamLine.SwitchRoundTrip | tutorial/imgproc/flood-fill/tutorial-flood-fill.cpp:21-107 | switching a point to octant zero and back, or back and then to octant zero, gives the point again, for every octant value |
| BresenhamLine.GetOctant | tutorial/imgproc/flood-fill/tutorial-flood-fill.cpp:109-146 | the octant is in 0..7 and, once both end points are switched to it, the run from the first to the second is at least the rise, which is not negative |
| BresenhamLine.TruncToInt | tutorial/imgproc/flood-fill/tutorial-flood-fill.cpp:151-152 | a cast of a double to int truncates toward zero |
| BresenhamLine.Clamp | tutorial/imgproc/flood-fill/tutorial-flood-fill.cpp:167-168 | the pixel index is below the image extent and equals the coordinate when that is already inside |
| BresenhamLine.RiseEnds | tutorial/imgproc/flood-fill/tutorial-flood-fill.cpp:158-177 | the line is at height 0 at its first point and at the full rise at its last |
| BresenhamLine.RiseStep | tutorial/imgproc/flood-fill/tutorial-flood-fill.cpp:171-176 | when the rise is below the run, the decision variable stays in [dy - dx, dy) and the line rises at a step exactly when it is not negative |
| BresenhamLine.StepDecision | tutorial/imgproc/flood-fill/tutorial-flood-fill.cpp:171-176 | one update of y and D moves the height and the decision variable from step k to step k + 1 |
| BresenhamLine.PixelOf | tutorial/imgproc/flood-fill/tutorial-flood-fill.cpp:164-168 | the pixel written for a point lies inside the image |
| BresenhamLine.LinePixelsAt | tutorial/imgproc/flood-fill/tutorial-flood-fill.cpp:163-169 | the k-th pixel of the line is the clamped, switched-back point k steps along it, inside the image |
| BresenhamLine.NextPixel | tutorial/imgproc/flood-fill/tutorial-flood-fill.cpp:163-169 | one more loop step appends the pixel of the current point |
| BresenhamLine.StepPointEnds | tutorial/imgproc/flood-fill/tutorial-flood-fill.cpp:158-163 | the octant-zero line starts at its first end point and ends at its second |
| BresenhamLine.PixelOfSwitched | tutorial/imgproc/flood-fill/tutorial-flood-fill.cpp:155-168 | a point switched to octant zero and back is drawn at its own clamped position |
| BresenhamLine.LineEnds | tutorial/imgproc/flood-fill/tutorial-flood-fill.cpp:148-178 | the first pixel drawn is the clamped first end point and the last one the clamped second end point |
| BresenhamLine.DrawInOctantZero | tutorial/imgproc/flood-fill/tutorial-flood-fill.cpp:158-177 | the loop writes the value at exactly the run + 1 pixels of the line and leaves every other pixel unchanged |
| BresenhamLine.DrawLine | tutorial/imgproc/flood-fill/tutorial-flood-fill.cpp:148-178 | after truncating the end points and switching to their octant, exactly the line's pixels get the value and every other pixel keeps its old value |
| TemplateExpansion.Expansion | modules/python/generator/visp_python_bindgen/template_expansion.py:3-20 | a parameter expands to a non-empty list; to itself alone exactly when it names no family; and never to a family name |
| TemplateExpansion.ExpansionIdempotent | modules/python/generator/visp_python_bindgen/template_expansion.py:3-10 | expanding an expanded type again gives it back alone |
| TemplateExpansion.Expansions | modules/python/generator/visp_python_bindgen/template_expansion.py:15-20 | one expansion list per parameter of the specialisation |
| TemplateExpansion.PrependEach | modules/python/generator/visp_python_bindgen/template_expansion.py:22 | each leading entry is paired with each tail, giving |xs|·|ts| tuples |
| TemplateExpansion.Product | modules/python/generator/visp_python_bindgen/template_expansion.py:22 | the product has as many tuples as the product of the list lengths |
| TemplateExpansion.PrependEachMembers | modules/python/generator/visp_python_bindgen/template_expansion.py:22 | a tuple is produced iff its head is one of the leading entries and its tail one of the tails |
| TemplateExpansion.ProductMembers | modules/python/generator/visp_python_bindgen/template_expansion.py:22 | the tuples of the product are exactly those with one entry per list, each taken from its list |
| TemplateExpansion.PrependEachAt | modules/python/generator/visp_python_bindgen/template_expansion.py:22 | tuple x·|ts| + j is leading entry x followed by tail j |
| TemplateExpansion.ProductAt | modules/python/generator/visp_python_bindgen/template_expansion.py:22 | the product enumerates in itertools order: the first position varies slowest |
| TemplateExpansion.ExpandTemplates | modules/python/generator/visp_python_bindgen/template_expansion.py:12-23 | the nested loops return the products of the specialisations' expansions, concatenated in input order |
| TemplateExpansion.ExpandAllAppend | modules/python/generator/visp_python_bindgen/template_expansion.py:14-22 | expanding a concatenation of specialisation lists expands each part in turn |
| TemplateExpansion.ExpandAllLength | modules/python/generator/visp_python_bindgen/template_expansion.py:14-22 | the result length is the sum over the specialisations of the product of their expansion sizes |
| TemplateExpansion.SpecTuples | modules/python/generator/visp_python_bindgen/template_expansion.py:15-22 | a specialisation expands exactly to the tuples of its own length whose entries come from the expansions of its parameters |
| TemplateExpansion.ExpandAllMembers | modules/python/generator/visp_python_bindgen/template_expansion.py:14-23 | a tuple is in the result exactly when one of the specialisations expands to it |
| ImageConversions.U32 | modules/python/bindings/include/core/image_conversions.hpp:130-136 | a value stored in an unsigned int is below 2^32 and unchanged when it already fits (also lines 163-174) |
| ImageConversions.U32AddMultiple | modules/python/bindings/include/core/image_conversions.hpp:134-137 | adding a multiple of 2^32 does not change the stored value |
| ImageConversions.U32MulLeft | modules/python/bindings/include/core/image_conversions.hpp:134-137 | storing a factor before multiplying gives the stored value of the exact product |
| ImageConversions.Size422 | modules/python/bindings/include/core/image_conversions.hpp:163-166 | size422 as unsigned arithmetic: h·w + h·(w/2)·2 modulo 2^32 |
| ImageConversions.Size420 | modules/python/bindings/include/core/image_conversions.hpp:167-170 | size420 as unsigned arithmetic: h·w + (h/2)·(w/2)·2 modulo 2^32 |
| ImageConversions.Size411 | modules/python/bindings/include/core/image_conversions.hpp:171-174 | size411 as unsigned arithmetic: h·w + (h/4)·(w/4)·2 modulo 2^32 |
| ImageConversions.Size422EvenWidth | modules/python/bindings/include/core/image_conversions.hpp:163-166 | for an even width without overflow, a 4:2:2 buffer holds exactly two bytes per pixel |
| ImageConversions.Size422OddWidth | modules/python/bindings/include/core/image_conversions.hpp:163-166 | for an odd width, the last column's chroma is dropped: the size is h bytes short of two per pixel |
| ImageConversions.Size420EvenSides | modules/python/bindings/include/core/image_conversions.hpp:167-170 | for even sides without overflow, a 4:2:0 buffer holds three bytes per two pixels |
| ImageConversions.Size411QuarterSides | modules/python/bindings/include/core/image_conversions.hpp:171-174 | for sides that are multiples of 4 without overflow, the buffer holds nine bytes per eight pixels |
| ImageConversions.SourceBytesAsWritten | modules/python/bindings/include/core/image_conversions.hpp:201-234 | as written, each layout's byte count is the size function the bindings pair with it, YUV411 sharing size411 with YVU9; for every other layout it is the corrected count |
| ImageConversions.SourceBytes | modules/python/bindings/include/core/image_conversions.hpp:201-234 | corrected: the byte count of each layout, below 2^32, with the packed 4:1:1 size for YUV411 |
| ImageConversions.SizePacked411 | modules/core/src/image/vpImageConvert_yuv.cpp:190-194 | corrected: a packed 4:1:1 buffer holds six bytes per started group of four pixels, modulo 2^32 (also lines 488-502) |
| ImageConversions.SizePacked411QuarterPixels | modules/core/src/image/vpImageConvert_yuv.cpp:488-502 | when the pixel count is a multiple of 4, the packed 4:1:1 size is three bytes per two pixels |
| ImageConversions.AsWrittenYuv411SourceShort | modules/python/bindings/include/core/image_conversions.hpp:171-174 | as written, for positive sides that are multiples of 4 the YUV411 byte check accepts fewer bytes than the YUV411 converters read for h·w pixels (also lines 232-234) |
| ImageConversions.AsWrittenYuv411FourByFour | modules/python/bindings/include/core/image_conversions.hpp:171-174 | a 4×4 destination: the check asks for 18 source bytes where the YUV411 converters read 24 (also lines 232-234) |
| ImageConversions.QuarterGroupsBound | modules/core/src/image/vpImageConvert_yuv.cpp:488-502 | the 6-byte groups YUV411ToGrey reads are at most the started quarters of the pixel count |
| ImageConversions.Yuv411SourceCoversConverters | modules/python/bindings/include/core/image_conversions.hpp:52-55 | corrected: a YUV411 source that passes the byte check without wrapping holds every byte the YUV411 converters read for h·w pixels (also lines 130-143, 232-234) |
| ImageConversions.CheckSimpleConversion | modules/python/bindings/include/core/image_conversions.hpp:74-99 | the conversion runs iff both arrays have at least two dimensions, the same height and width, and the channel layout each pixel size needs; each refusal names the first failed check; on success h and w are the source's extents stored as unsigned ints (modulo 2^32) |
| ImageConversions.SimpleConversionSizes | modules/python/bindings/include/core/image_conversions.hpp:74-99 | when a multi-byte conversion runs, each array holds exactly height·width pixels of its byte size, and the unsigned h and w passed on are those extents when they fit in 32 bits |
| ImageConversions.ThreeDimCount | modules/python/bindings/include/core/image_conversions.hpp:135-137 | a three-dimensional shape has the product of its three extents as element count |
| ImageConversions.WrappedCount | modules/python/bindings/include/core/image_conversions.hpp:134-137 | the unsigned product loop yields a value below 2^32 |
| ImageConversions.WrappedCountIsCount | modules/python/bindings/include/core/image_conversions.hpp:134-137 | the loop's product is the exact element count modulo 2^32 |
| ImageConversions.CheckYuvConversion | modules/python/bindings/include/core/image_conversions.hpp:121-159 | corrected (see Findings; YUV411 is checked against the packed size): the conversion runs iff the destination has at least two dimensions, the source's element count modulo 2^32 equals the layout's byte count for the stored destination height and width, and the destination's channel layout fits; h and w are the stored destination extents |
| ImageConversions.WrappedCountAliases | modules/python/bindings/include/core/image_conversions.hpp:134-139 | a source whose element count is off by a multiple of 2^32 passes the byte-count check unchanged |
| Panda3DRender.OrderedClip | modules/ar/include/visp3/ar/vpPanda3DRenderParameters.h:56-63 | the stored clipping pair is ordered and holds exactly the two given distances, unchanged when already ordered |
| Panda3DRender.OrderedClipSymmetric | modules/ar/include/visp3/ar/vpPanda3DRenderParameters.h:56-63 | the argument order does not matter, and storing an ordered pair again leaves it |
| Panda3DRender.RenderParameters.Default | modules/ar/include/visp3/ar/vpPanda3DRenderParameters.h:23 | default intrinsics, a 0×0 image, clipping between 0.001 and 10 (an ordered pair) |
| Panda3DRender.RenderParameters.constructor | modules/ar/include/visp3/ar/vpPanda3DRenderParameters.h:24-27 | every value stored as given; the clipping pair is ordered iff near ≤ far |
| Panda3DRender.RenderParameters.SetCameraIntrinsics | modules/ar/include/visp3/ar/vpPanda3DRenderParameters.h:39-45 | intrinsics with a distortion model are refused with the error and leave the stored ones; the others are stored; nothing else changes |
| Panda3DRender.RenderParameters.SetClippingDistance | modules/ar/include/visp3/ar/vpPanda3DRenderParameters.h:56-63 | the stored pair is the ordered pair of the arguments; nothing else changes |
| Panda3DRender.RenderParameters.SetImageResolution | modules/ar/include/visp3/ar/vpPanda3DRenderParameters.h:77-81 | height and width are stored; nothing else changes |
| MeanDriftTutorial.TypeTestToString | tutorial/mean-drift/tutorial-meandrift.cpp:65-87 | each of the four known tests has its display name; every other value, the count included, is "unknown-type-test" |
| MeanDriftTutorial.FindTypeTest | tutorial/mean-drift/tutorial-meandrift.cpp:96-111 | the result is the unknown test or a known test from the start index on whose name is the one looked up |
| MeanDriftTutorial.TypeTestFromString | tutorial/mean-drift/tutorial-meandrift.cpp:96-111 | the scan of the known tests in order returns the first whose name matches, the unknown test otherwise |
| MeanDriftTutorial.NameRoundTrip | tutorial/mean-drift/tutorial-meandrift.cpp:65-111 | the name of every enumerator, the unknown test included, reads back as that enumerator; any other value reads back as the unknown test |
| MeanDriftTutorial.UnknownNameGivesUnknown | tutorial/mean-drift/tutorial-meandrift.cpp:96-111 | a name gives the unknown test iff it is none of the four known names |
| MeanDriftTutorial.Join | tutorial/mean-drift/tutorial-meandrift.cpp:124-131 | a non-empty join is as long as the names plus one separator between each pair and starts with the first name |
| MeanDriftTutorial.JoinSnoc | tutorial/mean-drift/tutorial-meandrift.cpp:127-130 | appending a name to a non-empty join adds one separator and that name |
| MeanDriftTutorial.GetAvailableTypeTest | tutorial/mean-drift/tutorial-meandrift.cpp:121-132 | the message is the prefix, the known names joined by the separator, then the suffix |
| MeanDriftTutorial.AvailableListShape | tutorial/mean-drift/tutorial-meandrift.cpp:121-132 | the list names hinkley, ewma, cusum and sigma in enumerator order with one separator between each |

## Left out

- YuvConvert: the float chroma products `(x - 128) * 0.354` and `* 0.707` are modelled as exact rational products truncated toward zero, not as binary floating point.
- YuvConvert: the alpha byte is the `vpRGBa` default 255.
- YuvConvert: the YV12, YVU9, YCbCr and YCrCb converters and YUV420 to RGB(a) are not modelled; the YUYV, YUV422, YUV411 and YUV444 converters and the YUV420 luma extraction are.
- ImageFilter: `vpHistogram::calculate` is not part of this model; the histogram of the gradient levels is built by GradientHistogram and Histogram instead.
- ImageFilter: kernels larger than the built-in tables are produced by `vpArray2D::conv2`, which is not part of this model.
- StatisticalTest: the standard deviation is held as a variance, so no square root is taken; the comparisons are stated on variances.
- ParticleFilter: the multithreaded predict and update steps and the user callbacks are not modelled; the random initial particles and the uniform draws of resampling are parameters; floats are reals.
- ParticleFilter.Filter.constructor: a constructor with the given state, not a constructor of the source (which draws its particles at random).
- PointMap: the `memcpy` calls of `updatePoints` (vpPointMap.h:87, :95) copy `copiedRows * m_X.getCols()` BYTES, that is 3 bytes per row, not 3 doubles; the model copies whole rows, which is the intended behaviour and not the written one.
- PointMap: the removed-index vector is taken as empty on entry.
- PointMap.PointMap.UpdatePoints: requires that no more points are added than the map can hold; otherwise the source would drop more old rows than the map has, a case it does not guard.
- PointMap: the pixel projection is the pinhole formula of `vpMeterPixelConversion` without distortion, and the console output is not modelled.
- BundleAdjustment: the pose exponential map and the projection are function parameters; `minDistNewPoint` is unused by the modelled code.
- BundleAdjustment.CameraData.Error: indexes `m_indices3d` and `m_points2d` by position 0 .. |usedObservations|−1, as the source's `error` and `fillJacobianSparsity` do, not by the selected observation positions; when the selection is not a prefix of the observations this is likely not what the authors meant, but no corrected variant is modelled (Residual follows the code).
- BundleAdjustment: the Jacobian values, `jacobianSparsityPattern`'s matrix type and the Levenberg–Marquardt filter step are not modelled.
- BundleAdjustment.BundleAdjustment.constructor: a constructor with the given state, not a constructor of the source.
- KltTracker: OpenCV feature detection and `calcOpticalFlowPyrLK` are parameters (their output points and status); images and display are not modelled.
- KltTracker.KltOpencv.Track: requires as many flow points, statuses and ids as previous points. The source does not keep those lengths equal: `setInitialGuess(init, guess, fid)` (vpKltOpencv.cpp:446-460) checks only that init and guess match and stores fid whatever its length, after which the erase loop of `track` (vpKltOpencv.cpp:172-178) erases ids past the end or leaves them out of line with the points; and `addFeature` followed by `setInitialGuess(guess)` leaves fewer previous points than guesses, a pair OpenCV rejects. The model does not represent these states.
- KltTracker: the 64-bit overflow of the next feature id is not modelled; the copy constructor, `operator=` and the plain setters are not modelled.
- KltTracker.KltOpencv.SetInitialGuessWithIds: does not keep the ids below the next free id, because the source stores whatever ids it is given.
- SilhouetteSettings: the uniform draws are parameters assumed in [0, 1).
- SilhouetteSettings.ExtractionSettings.constructor: a constructor with the given values, not a constructor of the source.
- SilhouetteSettings: `getSilhouetteCandidates` and the trivial getters and setters are not modelled.
- SilhouetteSettings.ExtractionSettings.LoadJson: a JSON value of the wrong type, for which nlohmann's `from_json` throws `type_error`, is not represented, because the fields of SettingsJson are typed; the sampling rate is a JSON integer (a floating-point rate is not modelled) and the candidate count is taken to fit in an `int`.
- VisualOdometryUtils: `hasMask` is modelled as a mask being present, of the depth image's size; `levenbergMarquardtKeypoints2D` is not modelled.
- BresenhamLine: the end points' integral doubles are modelled as integers; an image of size 0 is excluded.
- ImageConversions: array shapes (`ssize_t`) are modelled as natural numbers; the YUYV, YUV422, YUV411, YUV444 and YUV420-to-grey conversion calls are modelled in YuvConvert, the YV12, YVU9, YCbCr, YCrCb and YUV420-to-RGB(a) ones are not; the simple (non-YUV) conversions' converters are not modelled.
- Panda3DRender: `setupPandaCamera` is not modelled; the default `vpCameraParameters` is a parameter; the getters are trivial.
- TemplateExpansion: `itertools.product` is modelled by the function Product.
- MeanDriftTutorial: the rest of the tutorial (the random signal, the plots and the test loop) is not modelled.
- CircleHoughParams: the enum/string conversions belong to vpImageFilter, which is not part of this model; JSON file I/O is not modelled; floats are reals.
- CircleHoughParams.FromJson: a JSON value of the wrong type, for which nlohmann throws `type_error`, is not represented, because the entries of HoughJson are typed; each entry already holds the value converted to its field's C++ type.
- BundleAdjustment.CameraData.SetUsedObservationsFrom3DIndices: the two-pointer selection is modelled as written and is not claimed equal to the membership selection ObservationsOf; AsWrittenMissesObservation shows an input where they differ, and no caller in the modelled code says which inputs it receives.
- YuvConvert.YUYVToGrey: requires a grey buffer of 2·HalfGroups(size) bytes; for an odd size the source's loop writes one byte past a size-byte buffer and reads past the source (GreyLoopsOverrun), which the model does not represent.
- YuvConvert.YUV422ToGrey: the same odd-size overrun as YUYVToGrey, excluded by the same requires.
- YuvConvert.YUV411ToGrey: requires a grey buffer of 4·QuarterGroups(size) bytes; for a size that is not a multiple of 4 the source's loop writes up to three bytes past a size-byte buffer (GreyLoopsOverrun), which the model does not represent.
- ImageFilterSeparable.FilterX: requires w ≥ 2·half; for narrower images the source's border loops write past the row and its unsigned bound `getWidth() - (size-1)/2` wraps (the same unsigned wrap as the first Findings row), which the model does not represent.
- ImageFilterSeparable.FilterY: requires h ≥ 2·half, for the same reason as FilterX on the columns.
- ImageFilterSeparable.SeparableFilter: requires both of the above.
- ImageFilterSeparable.GetGradX: requires w ≥ (size−1)/2; on narrower images the source's first column loop writes `dIx[i][j]` past the end of the row and its unsigned bound `I.getWidth() - (size - 1) / 2` wraps, which the model does not represent.
- ImageFilterSeparable.GetGradXFixed: requires w ≥ 3; narrower images hit the same unsigned wrap in the source, which the model does not represent.
- PointMap.PointMap.UpdatePoints: also requires distinct, in-range indices to remove; duplicates or out-of-range rows make the source's copy loop compute a negative unsigned row count, and the callers pass the output of getOutliers, which meets the requires.
- ParticleFilter.SimpleMean: the message of `vpColVector`'s dimension error is not part of this model; a fixed message stands for it.
- StatisticalTest.HinkleyTest.UpdateStatistics: requires count < nbSamplesForStatistics. The source reaches states outside it: after `setNbSamplesForStat(0)` the buffer is `new float[0]` (vpStatisticalTestAbstract.cpp:157-164), and shrinking the warm-up length below the count during the warm-up leaves a buffer shorter than the count; in both, `updateStatistics` writes `m_s[m_count]` past the buffer (vpStatisticalTestAbstract.cpp:69), which the model does not represent.
- StatisticalTest.HinkleyTest.TestDownUpwardMeanShift: during the warm-up, requires count < nbSamplesForStatistics for the same reason as UpdateStatistics; the zero and shrunk warm-up lengths are not represented.
- StatisticalTest.HinkleyTest.TestDownwardMeanShift: the same requires and the same excluded states as TestDownUpwardMeanShift.
- StatisticalTest.HinkleyTest.TestUpwardMeanShift: the same requires and the same excluded states as TestDownUpwardMeanShift.
- ImageFilter.ComputeCannyThreshold: the gradients always come from the caller; the source's path that computes them itself with `computePartialDerivatives` when `p_dIx` or `p_dIy` is null is not modelled.

## Findings

| source | as written | input that shows it | evidently intended | confidence | as-written member | corrected member |
|---|---|---|---|---|---|---|
| modules/core/include/visp3/core/vpImageFilter.h:459-474 | the row bound `I.getHeight() - half_size_y` is unsigned, so an image with fewer rows than half the kernel wraps it to about 2^32 and the row loop runs | a 1-row image with a 5-row kernel: the bound wraps, the row loop runs and reads image row 4 | no pixel is filtered when the image is smaller than the kernel | high, not executed | ImageFilter.FilterRowBound32, ImageFilter.FilterRowLoopRuns | ImageFilter.Filter, ImageFilter.SmallImageNotCovered |
| modules/core/src/math/misc/vpStatisticalTestAbstract.cpp:82-88 | with a minimum deviation set, the stored deviation is the larger of the PREVIOUS stored one and the minimum; the fresh estimate is discarded | right after init (previous stored deviation 0), an estimated variance 1 and a minimum deviation 0.5: the stored variance becomes 0.25 | the larger of the fresh estimate and the minimum | high, not executed | StatisticalTest.StoredVarianceAsWritten, StatisticalTest.StoredVarianceAsWrittenIgnoresEstimate | StatisticalTest.StoredVariance, StatisticalTest.StatisticsUpdated, StatisticalTest.HinkleyTest.UpdateStatistics |
| modules/core/src/math/misc/vpParticleFilter.cpp:70-72 | the test computes temp = 2·S²/Q and N_eff = 1/temp = Q/(2·S²), half the inverse of the effective sample size S²/Q and so at most 1/2, and compares it with N/2, so it asks to resample for any non-negative weights with a non-zero sum once N ≥ 2 | weights [0.5, 0.5]: S = 1 and Q = 0.5, so N_eff = Q/(2·S²) = 0.25 < N/2 = 1, and it resamples although the weights are uniform | resample iff the effective sample size S²/Q is below N/2 | high, not executed | ParticleFilter.AsWrittenResamplesUniformPair, ParticleFilter.AsWrittenAlwaysResamples | ParticleFilter.ResamplingCheck, ParticleFilter.UniformWeightsNeverResample, ParticleFilter.DegenerateWeightsResample |
| modules/tracker/rbt/include/visp3/rbt/vpPointMap.h:48 | the new size adds `pointsToAdd.size()`, the coordinate count (3 per point), not the row count | a 2-row map, no removal, one new point: 5 rows are allocated and 3 filled | rows - removed + new points | high, not executed | PointMap.NewSizeAsWritten, PointMap.AsWrittenSizeCountsCoordinates, PointMap.AsWrittenSizeOvercounts | PointMap.UpdatedSize |
| modules/tracker/rbt/include/visp3/rbt/vpPointMap.h:61-72 | the scan for the oldest rows to drop runs over `i < shouldBeRemoved` only and advances past listed rows without extending, and dereferences `removedIt` even when the list is exhausted | 3 rows, row 0 listed for removal, no point added, room for 1 (shouldBeRemoved 1): the scan finds row 0 listed and drops no other row, so 2 rows go into a 1-row matrix; with 2 rows, none listed and room for 1 it dereferences the end of the empty list | skip listed rows and keep scanning until shouldBeRemoved unlisted rows are dropped | high, not executed | PointMap.StartingIndicesAsWritten, PointMap.AsWrittenStartDropsTooFew | PointMap.PlanShape |
| modules/tracker/rbt/include/visp3/rbt/vpPointMap.h:73-75 | the starting indices are pushed to the front one at a time, which reverses them ahead of the sorted listed rows | 4 rows, row 3 listed, no point added, room for 1 (shouldBeRemoved 2): the starting indices [0, 1] make the removed list [1, 0, 3] | the removed list in ascending order | high, not executed | PointMap.StartingIndicesAsWritten, PointMap.PushFrontAll, PointMap.AsWrittenRemovedNotSorted | PointMap.PlanShape, PointMap.PointMap.UpdatePoints |
| modules/tracker/rbt/src/vo/vpRBBundleAdjustment.cpp:73-76 | the point block is marked at column `numCameras * 6 + pi * 3` for each of j = 0..2, without `+ j` | any observation: the y and z columns of its point are never marked | the three columns of the point block marked | high, not executed | BundleAdjustment.AsWrittenMissesPointColumns | BundleAdjustment.CameraData.FillJacobianSparsity, BundleAdjustment.CameraData.ResidualDependsOnPattern |
| modules/tracker/rbt/include/visp3/rbt/vpRBSilhouettePointsExtractionSettings.h:111 | setSampleStep tests the stored step, not its argument, against 0 | stored step 1, argument 0: accepted; every later call is refused | refuse a 0 argument | high, not executed | SilhouetteSettings.SampleStepAsWritten, SilhouetteSettings.AsWrittenAcceptsZeroStep | SilhouetteSettings.SampleStep, SilhouetteSettings.CheckedStepStaysPositive, SilhouetteSettings.ExtractionSettings.SetSampleStep, SilhouetteSettings.ExtractionSettings.LoadJson |
| modules/python/bindings/include/core/image_conversions.hpp:171-174 | the YUV411 converters (also lines 232-234) are checked against size411, the planar size h·w + (h/4)·(w/4)·2 of YVU9, while YUV411 is packed at 6 bytes per 4 pixels | a 4×4 destination: 18 source bytes are accepted where the converters read 24 | the packed 4:1:1 size, 6 bytes per group of 4 pixels | high, not executed | ImageConversions.SourceBytesAsWritten, ImageConversions.AsWrittenYuv411SourceShort, ImageConversions.AsWrittenYuv411FourByFour | ImageConversions.SourceBytes, ImageConversions.SizePacked411, ImageConversions.Yuv411SourceCoversConverters, ImageConversions.CheckYuvConversion |
