# perceptualdiff-java in Dafny

A model of the core of perceptualdiff-java: Yee's perceptual image comparison
("A Perceptual Metric for Production Testing", Journal of Graphics Tools 2004).
Two RGBA images are compared as follows:

- Images of different sizes fail, and binary identical images pass.
- Otherwise each image is converted to luminance and CIE L\*a\*b\* chroma.
- The luminance is blurred into an eight-level Laplacian pyramid.
- Every pixel is judged by a luminance test and a chroma test. The luminance
  test uses a threshold-versus-intensity curve, elevated by visual masking.
- The comparison passes when fewer pixels fail than the threshold allows.
- Failing pixels are painted opaque red, and passing ones opaque black, into
  an optional difference image.

| Dafny file | module | Java source |
|---|---|---|
| Numerics.dfy | `Numerics` | the library calls of the metric (`FastMath`, `Math`) |
| RGBAImage.dfy | `Images` | `RGBAImage.java` |
| ColourSpace.dfy | `Colour` | `ColourSpace.java` |
| LPyramid.dfy | `Pyramid` | `LPyramid.java` |
| Metric.dfy | `Metric` | `Metric.java` (`ComparisonResult`) |
| PerceptualDiffParameters.dfy | `Parameters` | `PerceptualDiffParameters.java` |
| MetricImpl.dfy | `Comparator` | `MetricImpl.java` |

The model takes the same form as the Java code. One deliberate difference: the
blur reads a clamped reflection where the Java reads outside the image (see
"## Findings").

- **Images.** `RGBAImage` is a class over a row-major `array<int32>` of
  packed ARGB words. `Set` overwrites one word in place.
- **Colour space.** `ColourSpace` is a class whose constructor fills six
  channel arrays pixel by pixel.
- **Pyramid.** `LPyramid` is a class holding a sequence of eight level
  arrays. Level 0 is the input array itself. Every other level is a fresh
  array blurred in place by `Convolve`, except when the image has at most one
  pixel, in which case every level is the input array.
- **Comparison.** `YeeCompare` runs the Java control flow on these objects,
  with the corrected reflection in the blur.
  It is proved to return `Compare`, a pure function of the two images'
  contents, and to leave the difference image equal to `DiffAfter`.
- **Properties.** The properties of the comparison are proved about
  `Compare`. They include symmetry in the two images, monotonicity in the
  threshold and in `luminanceOnly`, that a colour factor of zero acts as
  luminance-only, and painting exactly the failures.
- **Library calls.** Java's transcendental calls (`pow`, `exp`, `sqrt`,
  `log10`, `tan`, `toDegrees`, `toRadians`) are uninterpreted. They are the
  fields of a `MathLib` value that every operation takes as a parameter.
  `Sound(m)` states the only facts assumed of them:
  - `pow(0, g) = 0` for `g > 0`;
  - `pow(1, g) = 1`;
  - a power of ten is positive.
- **Arithmetic.** Floating-point values are modelled as exact reals.

## Model

| member | source | states |
|---|---|---|
| Numerics.Quotient | src/org/pdiff/MetricImpl.java:151 | a division of computed reals gives back the dividend when multiplied by a non-zero divisor |
| Numerics.Pow2 | src/org/pdiff/MetricImpl.java:35-43 | the pixel span 2^n of level n, doubled from 1.0, is at least 1 |
| Parameters.Defaults | src/org/pdiff/PerceptualDiffParameters.java:57-64 | the default parameters: colour test on at factor 1.0, 45 degree field of view, gamma 2.2, 100 cd/m^2 display, 100 tolerated pixels |
| Metric.Verdict | src/org/pdiff/Metric.java:39-41 | the two-argument result keeps passed and reason, with pixelsFailed -1, errorSum 0 and no difference image |
| Metric.Full | src/org/pdiff/Metric.java:43-50 | the five-argument result stores every argument unchanged in its field |
| Images.Unsigned | src/org/pdiff/RGBAImage.java:68-96 | a signed 32-bit word read as unsigned lies in [0, 2^32) and agrees with the word modulo 2^32 |
| Images.Signed | src/org/pdiff/RGBAImage.java:98-104 | an unsigned 32-bit value packs back into the word that reads back as it |
| Images.RedOf | src/org/pdiff/RGBAImage.java:68-74 | getRed is bits 0-7 of the word, a value in [0, 255] |
| Images.GreenOf | src/org/pdiff/RGBAImage.java:76-81 | getGreen is bits 8-15 of the word, a value in [0, 255] |
| Images.BlueOf | src/org/pdiff/RGBAImage.java:83-89 | getBlue is bits 16-23 of the word, a value in [0, 255] |
| Images.AlphaOf | src/org/pdiff/RGBAImage.java:91-96 | getAlpha is bits 24-31 of the word, a value in [0, 255] |
| Images.ChannelOfUnsigned | src/org/pdiff/RGBAImage.java:73-95 | Java's `(s >> k) & 0xFF` on a signed word is byte k/8 of the word read as unsigned |
| Images.ChannelsPartitionSample | src/org/pdiff/RGBAImage.java:68-96 | red + green * 2^8 + blue * 2^16 + alpha * 2^24 is the word read as unsigned |
| Images.ColorRgbReadBack | src/org/pdiff/RGBAImage.java:98-105 | the word written by set(r, g, b, a) reads back blue as r, green as g, red as b and alpha as a, because the accessors swap red and blue |
| Images.IndexCoordinates | src/org/pdiff/RGBAImage.java:119-124 | a linear index below width * height addresses (i % width, i / width) inside the image, and x + y * width gives back i |
| Images.IndexInRange | src/org/pdiff/MetricImpl.java:181 | the row-major index y * w + x of a pixel inside the image is a valid linear index |
| Images.LinearIndex | src/org/pdiff/LPyramid.java:82-88 | the index x + y * width of a pixel inside the image is valid and maps back to (x, y) |
| Images.RGBAImage.Contents | src/org/pdiff/RGBAImage.java:107-124 | the contents of an image are its width, its height and its words |
| Images.RGBAImage.constructor | src/org/pdiff/RGBAImage.java:51-57 | a new image has the given width, height and name, and all of its words are zero |
| Images.RGBAImage.Get | src/org/pdiff/RGBAImage.java:119-124 | get(i) is the word of pixel i in row-major order |
| Images.RGBAImage.GetRed | src/org/pdiff/RGBAImage.java:68-74 | getRed(i) is bits 0-7 of word i, in [0, 255] |
| Images.RGBAImage.GetGreen | src/org/pdiff/RGBAImage.java:76-81 | getGreen(i) is bits 8-15 of word i, in [0, 255] |
| Images.RGBAImage.GetBlue | src/org/pdiff/RGBAImage.java:83-89 | getBlue(i) is bits 16-23 of word i, in [0, 255] |
| Images.RGBAImage.GetAlpha | src/org/pdiff/RGBAImage.java:91-96 | getAlpha(i) is bits 24-31 of word i, in [0, 255] |
| Images.RGBAImage.Set | src/org/pdiff/RGBAImage.java:98-105 | set writes the Color word at index i and leaves every other pixel unchanged |
| Colour.AdobeRgbToXyzIsLinear | src/org/pdiff/ColourSpace.java:19-28 | the Adobe RGB (1998) to XYZ conversion is linear: it maps c * p1 + p2 to c * f(p1) + f(p2) |
| Colour.GlobalWhiteIsRowSums | src/org/pdiff/ColourSpace.java:30-38 | the reference white is the image of (1, 1, 1), the row sums of the matrix |
| Colour.LabFPiecesMeetAtEpsilon | src/org/pdiff/ColourSpace.java:46-48 | the linear piece of the Lab nonlinearity reaches 6/29 at epsilon = 216/24389 = (6/29)^3, where the cube root piece takes over |
| Colour.LabOfBlack | src/org/pdiff/ColourSpace.java:53-73 | XYZ (0, 0, 0) converts to L = a = b = 0 exactly |
| Colour.NeutralHasNoChroma | src/org/pdiff/ColourSpace.java:19-27 | a neutral colour R = G = B = c maps to c times the white, and its a and b are 0 |
| Colour.DisplayLuminanceScalesOnlyLuminance | src/org/pdiff/ColourSpace.java:134-135 | the luminance channel scales in proportion to the display luminance (lum2 * l1 == lum1 * l2), and the chroma channels do not depend on it |
| Colour.PremultipliedBlack | src/org/pdiff/ColourSpace.java:104-116 | a pixel with alpha 0 or with black colour channels converts to luminance 0 and chroma 0 |
| Colour.AlphaOverBlackIsInvisible | src/org/pdiff/ColourSpace.java:104-110 | two black pixels that differ only in alpha convert to the same readings |
| Colour.GreyPixelHasNoChroma | src/org/pdiff/ColourSpace.java:112-121 | a grey pixel (red = green = blue) has chroma a = b = 0 |
| Colour.ConvertPixels | src/org/pdiff/ColourSpace.java:100-137 | the pixel loop fills three fresh arrays of length w * h, each index with the conversion of that pixel's word |
| Colour.ColourSpace.constructor | src/org/pdiff/ColourSpace.java:85-140 | the six channel arrays are fresh, of length w * h, and hold the luminance and the a and b chroma of each pixel of each image |
| Pyramid.Kernel | src/org/pdiff/LPyramid.java:97 | every weight of the 5-tap kernel is positive |
| Pyramid.TapIndexAsWrittenLeavesImage | src/org/pdiff/LPyramid.java:106-120 | the reflection as written sends pixel (0, 0) of a 1x2 image to index -1 and of a 2x1 image to index -2 |
| Pyramid.MirrorIndex | src/org/pdiff/LPyramid.java:106-118 | the reflected coordinate is always inside the image; it is the neighbour itself when that is inside, and the as-written reflection whenever the dimension is at least 2 |
| Pyramid.TapWeight | src/org/pdiff/LPyramid.java:120 | every outer-product weight kernel[i + 2] * kernel[j + 2] is positive |
| Pyramid.TapAt | src/org/pdiff/LPyramid.java:106-120 | every tap of the blur reads a valid index of the source and adds its weight times that sample |
| Pyramid.Blur | src/org/pdiff/LPyramid.java:93-127 | a blurred level has w * h samples |
| Pyramid.BlurAt | src/org/pdiff/LPyramid.java:99-124 | pixel (x, y) of a blurred level, at index x + y * w, is the weighted sum of its 25 reflected neighbours |
| Pyramid.Level | src/org/pdiff/LPyramid.java:56-62 | every level has w * h samples |
| Pyramid.LevelStep | src/org/pdiff/LPyramid.java:56-62 | for an image of more than one pixel, level k > 0 is the blur of level k - 1 |
| Pyramid.TapMonotone | src/org/pdiff/LPyramid.java:120 | a tap of a pointwise larger source is no smaller |
| Pyramid.ColumnSumMonotone | src/org/pdiff/LPyramid.java:105-121 | a kernel column of a pointwise larger source sums to no less |
| Pyramid.CellSumMonotone | src/org/pdiff/LPyramid.java:104-122 | the 5x5 weighted sum of a pointwise larger source is no smaller |
| Pyramid.BlurMonotone | src/org/pdiff/LPyramid.java:93-127 | blurring preserves the pointwise order of two images |
| Pyramid.LevelMonotone | src/org/pdiff/LPyramid.java:56-62 | every pyramid level preserves the pointwise order of the two input images |
| Pyramid.KernelWeightsSumToOne | src/org/pdiff/LPyramid.java:97 | the 25 weights kernel[i + 2] * kernel[j + 2] sum to 1 |
| Pyramid.LPyramid.constructor | src/org/pdiff/LPyramid.java:49-63 | level 0 is the input array, which is left unchanged. Every level is that array when w * h <= 1, and otherwise a fresh array. Each level is the input blurred k times |
| Pyramid.LPyramid.BuildLevels | src/org/pdiff/LPyramid.java:55-63 | the level loop builds eight arrays of w * h samples: level k is the input blurred k times, and level 0 is the input array |
| Pyramid.LPyramid.NextLevel | src/org/pdiff/LPyramid.java:59-61 | a new level is a fresh array holding the blur of the previous level |
| Pyramid.LPyramid.GetValue | src/org/pdiff/LPyramid.java:82-88 | getValue(x, y, level) is word x + y * width of that level, for a level below MAX_PYR_LEVELS |
| Pyramid.LPyramid.GetValueIsBlurred | src/org/pdiff/LPyramid.java:82-88 | getValue(x, y, level) is pixel (x, y) of the input blurred level times |
| Pyramid.LPyramid.Convolve | src/org/pdiff/LPyramid.java:93-127 | convolve fills the destination with the blur of the source and changes nothing else |
| Pyramid.LPyramid.BlurredValue | src/org/pdiff/LPyramid.java:102-122 | the kernel loops at (x, y) compute the weighted sum of the 25 reflected neighbours |
| Pyramid.LPyramid.AddColumn | src/org/pdiff/LPyramid.java:105-121 | the inner kernel loop adds one kernel column of weighted neighbours to the running sum |
| Pyramid.LPyramid.MirroredCoordinate | src/org/pdiff/LPyramid.java:106-118 | the coordinate rewriting computes the clamped reflection MirrorIndex: inside the dimension, and equal to the Java reflection whenever the dimension is at least 2 (the Java yields -1 for a dimension of 1; the model reads 0) |
| Comparator.AdaptationFrom | src/org/pdiff/MetricImpl.java:38-44 | the search from level i stops at a level in [i, 8) |
| Comparator.AdaptationLevel | src/org/pdiff/MetricImpl.java:34-47 | adaptation returns a level below MAX_PYR_LEVELS |
| Comparator.AdaptationFromIsFirst | src/org/pdiff/MetricImpl.java:38-44 | the search from level i returns the first level from i on whose span 2^level exceeds n, or the last level |
| Comparator.AdaptationLevelIsFirstCoarseEnough | src/org/pdiff/MetricImpl.java:34-47 | adaptation(n) is the smallest level whose span 2^level exceeds n, or 7 when there is none |
| Comparator.Adaptation | src/org/pdiff/MetricImpl.java:34-47 | the doubling loop computes that smallest level |
| Comparator.Csf | src/org/pdiff/MetricImpl.java:53-58 | the contrast sensitivity at zero cycles per degree is zero |
| Comparator.Mask | src/org/pdiff/MetricImpl.java:63-67 | zero contrast is not masked (factor 1) |
| Comparator.TviExponent | src/org/pdiff/MetricImpl.java:80-93 | exactly one of the five regimes applies, chosen by log10 of the adaptation luminance with lower-inclusive breakpoints -3.94, -1.44, -0.0184 and 1.9 |
| Comparator.Tvi | src/org/pdiff/MetricImpl.java:79-96 | the visibility threshold is positive |
| Comparator.CyclesPerDegree | src/org/pdiff/MetricImpl.java:159-164 | eight entries; cpd[0] is half the pixels per degree and each further entry half the one before |
| Comparator.CyclesPerDegreeTable | src/org/pdiff/MetricImpl.java:159-164 | the halving loop fills a fresh array with that table |
| Comparator.FrequencyWeights | src/org/pdiff/MetricImpl.java:170-174 | six weights, each of which times the sensitivity at its level's frequency gives the peak sensitivity |
| Comparator.FrequencyWeightTable | src/org/pdiff/MetricImpl.java:170-174 | the loop fills a fresh array of six entries with those weights |
| Comparator.PeakFrequencyHasUnitWeight | src/org/pdiff/MetricImpl.java:166-173 | a level whose frequency is the peak frequency 3.248 gets weight 1 |
| Comparator.ScalesFor | src/org/pdiff/MetricImpl.java:150-174 | the viewing set-up has a valid adaptation level from the field of view, and cpd[0] is half of width / numOneDegreePixels |
| Comparator.ViewingScales | src/org/pdiff/MetricImpl.java:150-174 | the set-up code computes exactly that viewing set-up |
| Comparator.AdaptationLuminance | src/org/pdiff/MetricImpl.java:183 | adapt is at least 1e-5 and at least the mean of the two luminances at the adaptation level |
| Comparator.Contrast | src/org/pdiff/MetricImpl.java:189-198 | a band contrast is non-negative, and zero iff neither image changes between levels i and i + 1 |
| Comparator.Contrasts | src/org/pdiff/MetricImpl.java:188-203 | six non-negative band contrasts |
| Comparator.ContrastFromReadings | src/org/pdiff/MetricImpl.java:189-198 | proof step, not a property: unfolds Contrast so that the loop's numerator / denominator is band contrast i |
| Comparator.BandContrast | src/org/pdiff/MetricImpl.java:189-198 | the code computes band contrast i of the pixel from the pyramids |
| Comparator.ElevationFactor | src/org/pdiff/MetricImpl.java:185-207 | the threshold elevation factor always lies in [1, 10] |
| Comparator.MaskedSumStep | src/org/pdiff/MetricImpl.java:199-202 | proof step, not a property: unfolds the masked sum by one band, adding the masked term to factor and the contrast to sumContrast |
| Comparator.MaskedSumOfFlat | src/org/pdiff/MetricImpl.java:188-203 | bands with zero contrast add nothing to the masked sum |
| Comparator.FlatPixelIsNotElevated | src/org/pdiff/MetricImpl.java:185-207 | a pixel whose pyramids are flat across all bands gets factor exactly 1 |
| Comparator.ElevationAt | src/org/pdiff/MetricImpl.java:185-207 | the band loop with its clamps computes the elevation factor of the pixel |
| Comparator.LuminanceDelta | src/org/pdiff/MetricImpl.java:209 | the luminance difference is non-negative, and zero iff the level-0 luminances are equal |
| Comparator.ColourDelta | src/org/pdiff/MetricImpl.java:222-232 | deltaE is 0 in scotopic regions (adapt < 10) and for equal chroma, and non-negative for a non-negative colour factor |
| Comparator.ColourDeltaFromReadings | src/org/pdiff/MetricImpl.java:222-232 | proof step, not a property: unfolds ColourDelta so that the code's (da^2 + db^2) * colorScale is deltaE |
| Comparator.Judge | src/org/pdiff/MetricImpl.java:209-239 | the verdict on one pixel fails above 10 times the threshold and passes luminance-only at or below it. Its error is the luminance delta under luminance-only, and otherwise at least that delta |
| Comparator.DecideBounds | src/org/pdiff/MetricImpl.java:213-239 | for factor in [1, 10]: a delta above 10 * threshold always fails, and luminance-only a delta at or below the threshold always passes. The error is delta, plus deltaE when the chroma test runs |
| Comparator.ThresholdBetween | src/org/pdiff/MetricImpl.java:207-216 | the elevated threshold factor * tvi lies between tvi and 10 * tvi |
| Comparator.DecideFromReadings | src/org/pdiff/MetricImpl.java:211-239 | proof step, not a property: unfolds Decide so that the code's pass flag and error increments are the verdict |
| Comparator.TestPixel | src/org/pdiff/MetricImpl.java:183-239 | the code at one pixel computes the verdict Judge on that pixel's readings |
| Comparator.EqualPixelPasses | src/org/pdiff/MetricImpl.java:209-239 | a pixel with equal luminance and chroma in both images passes with error 0 |
| Comparator.ScotopicPixelIgnoresColour | src/org/pdiff/MetricImpl.java:224-228 | below adaptation luminance 10 the verdict is that of luminance-only |
| Comparator.LuminanceOnlyPixelIsLenient | src/org/pdiff/MetricImpl.java:220-239 | a pixel that passes with the chroma test also passes luminance-only |
| Comparator.ZeroColourFactorPixel | src/org/pdiff/MetricImpl.java:220-238 | with colour factor 0 the verdict is that of luminance-only |
| Comparator.JudgeOnlyReadsTests | src/org/pdiff/MetricImpl.java:209-239 | the verdict depends on the parameters only through luminanceOnly and colorFactor |
| Comparator.Swapped | src/org/pdiff/MetricImpl.java:183-232 | swapping images A and B swaps every reading of the pixel |
| Comparator.ContrastOfSwapped | src/org/pdiff/MetricImpl.java:189-198 | a band contrast does not depend on which image is A |
| Comparator.ContrastsOfSwapped | src/org/pdiff/MetricImpl.java:188-203 | the six band contrasts do not depend on which image is A |
| Comparator.AdaptationOfSwapped | src/org/pdiff/MetricImpl.java:183 | adapt does not depend on which image is A |
| Comparator.ColourDeltaOfSwapped | src/org/pdiff/MetricImpl.java:230-232 | deltaE does not depend on which image is A |
| Comparator.LuminanceDeltaOfSwapped | src/org/pdiff/MetricImpl.java:209 | delta does not depend on which image is A |
| Comparator.ReadingsOfSwapped | src/org/pdiff/MetricImpl.java:183-232 | every quantity the verdict reads is unchanged by swapping the images |
| Comparator.JudgeIsSymmetric | src/org/pdiff/MetricImpl.java:183-239 | the verdict on a pixel does not depend on which image is A |
| Comparator.LevelColumn | src/org/pdiff/LPyramid.java:82-88 | the readings of one pixel at all eight levels |
| Comparator.PixelSamples | src/org/pdiff/MetricImpl.java:179-232 | one valid set of readings per pixel, w * h in all |
| Comparator.Samples | src/org/pdiff/MetricImpl.java:134-143 | the readings of every pixel of two equally sized images: w * h valid samples |
| Comparator.Outcomes | src/org/pdiff/MetricImpl.java:179-253 | one verdict per pixel |
| Comparator.PixelOutcomes | src/org/pdiff/MetricImpl.java:134-253 | the verdicts on all w * h pixels of two equally sized images |
| Comparator.OutcomesJudged | src/org/pdiff/MetricImpl.java:179-253 | verdict k is the verdict on sample k |
| Comparator.CountFailed | src/org/pdiff/MetricImpl.java:176-246 | 0 <= pixelsFailed <= number of pixels |
| Comparator.CountFailedZeroIffAllPass | src/org/pdiff/MetricImpl.java:241-246 | no pixel counted as failed iff every pixel passed |
| Comparator.CountFailedMonotone | src/org/pdiff/MetricImpl.java:241-246 | when every pixel that passes one run also passes the other, the other counts no more failures |
| Comparator.ErrorTotalNonNegative | src/org/pdiff/MetricImpl.java:209-234 | a sum of non-negative errors is non-negative |
| Comparator.PrefixStep | src/org/pdiff/MetricImpl.java:209-246 | one more pixel adds one failure iff it failed, and adds its error to errorSum |
| Comparator.Compare | src/org/pdiff/MetricImpl.java:99-265 | passed iff the dimensions agree and either the words are identical or fewer pixels fail than thresholdPixels. Mismatched dimensions give "dimensions do not match" and identical words give "binary identical", both with pixelsFailed -1, errorSum 0 and no difference image. Otherwise 0 <= pixelsFailed <= w * h and the reason follows the verdict |
| Comparator.Painted | src/org/pdiff/MetricImpl.java:241-251 | painting keeps the length of the difference image |
| Comparator.PaintedMarksFailures | src/org/pdiff/MetricImpl.java:241-251 | each painted pixel is opaque: opaque red iff it failed, opaque black iff it passed; pixels beyond the images are untouched |
| Comparator.PaintedStep | src/org/pdiff/MetricImpl.java:241-251 | painting one more verdict changes only the next pixel |
| Comparator.DiffAfter | src/org/pdiff/MetricImpl.java:102-251 | the difference image keeps its length. It is left exactly as it was when the sizes differ or the words are identical, and pixels beyond the images are never touched |
| Comparator.OutcomesOnlyReadTests | src/org/pdiff/MetricImpl.java:209-239 | the verdicts depend on the parameters only through luminanceOnly and colorFactor |
| Comparator.ThresholdMonotone | src/org/pdiff/MetricImpl.java:259 | raising thresholdPixels keeps the failure count, and a comparison that passed still passes |
| Comparator.LuminanceOnlyNeverAddsFailures | src/org/pdiff/MetricImpl.java:220-239 | luminance-only counts no more failures, and a comparison that passes with the chroma test also passes luminance-only |
| Comparator.ZeroColourFactorIsLuminanceOnly | src/org/pdiff/PerceptualDiffParameters.java:52-55 | with colour factor 0 the comparison gives the same result as luminance-only |
| Comparator.ErrorSumNonNegative | src/org/pdiff/MetricImpl.java:177-234 | with a non-negative colour factor errorSum is non-negative |
| Comparator.SamplesOfSwapped | src/org/pdiff/MetricImpl.java:134-143 | swapping the images swaps the readings of every pixel |
| Comparator.CompareIsSymmetric | src/org/pdiff/MetricImpl.java:99-265 | comparing B with A gives the same result as comparing A with B |
| Comparator.AreBinaryIdentical | src/org/pdiff/MetricImpl.java:115-122 | the early-exit loop finds the images identical iff all their words are equal |
| Comparator.RowStartIsProduct | src/org/pdiff/MetricImpl.java:181 | the running start of row y is y * w |
| Comparator.RowsCover | src/org/pdiff/MetricImpl.java:179-181 | the h rows of w pixels cover exactly the w * h indices |
| Comparator.PaintPixel | src/org/pdiff/MetricImpl.java:241-251 | the verdict of pixel n is painted into the difference image, opaque black for a pass and opaque red for a failure |
| Comparator.ScanPixel | src/org/pdiff/MetricImpl.java:181-251 | after pixel index the counter and errorSum cover the pixels up to it, and the difference image is painted up to it |
| Comparator.ScanRow | src/org/pdiff/MetricImpl.java:180-252 | after row y the counter, errorSum and difference image cover the pixels up to the end of the row |
| Comparator.ScanRows | src/org/pdiff/MetricImpl.java:179-253 | the nested loops count the failures, sum the errors and paint every verdict |
| Comparator.ScanPixels | src/org/pdiff/MetricImpl.java:176-253 | the pixel loop counts the failures and sums the errors of all verdicts, and paints them over the old difference image |
| Comparator.ChannelsOfImage | src/org/pdiff/ColourSpace.java:100-137 | the channel arrays, read as sequences, are the luminance and chroma of each pixel |
| Comparator.SampledFromImages | src/org/pdiff/MetricImpl.java:134-143 | pyramids over the converted luminances and the chroma arrays hold, at every pixel and level, the readings the specification uses |
| Comparator.ConvertAndBlur | src/org/pdiff/MetricImpl.java:134-143 | colour conversion and the two pyramids provide the readings of every pixel |
| Comparator.PerceptualTest | src/org/pdiff/MetricImpl.java:134-264 | for equally sized, not identical images, the result is Compare and every verdict is painted into the difference image |
| Comparator.YeeCompare | src/org/pdiff/MetricImpl.java:99-265 | yeeCompare returns Compare of the images as they were on entry and leaves the difference image as DiffAfter |

## Left out

- Floating point: doubles and floats are exact reals. The `(float)` narrowing
  casts in `ColourSpace` and `convolve` are not modelled, and neither is
  rounding, so the counts in the Java regression tests are not reproduced.
- The library calls `pow`, `exp`, `sqrt`, `log10`, `tan`, `toDegrees` and
  `toRadians` are uninterpreted. The model assumes only the three facts in
  `Sound` about them.
- Numerics.Quotient: a real division by zero gives 0 instead of Java's
  infinity or NaN. This concerns `w / numOneDegreePixels` and
  `csfMax / csf(...)`.
- Comparator.Mask: the unit factor at zero contrast is stated only when
  `Sound(m)` holds, because it rests on `pow(0, g)` and `pow(1, g)`.
- Comparator.Tvi: positivity is stated only when `Sound(m)` holds.
- Comparator.Judge: the bounds against the threshold are stated only when
  `Sound(m)` holds, because they need a positive threshold.
- File I/O: the `RGBAImage(File)` constructor and its format check,
  `writeToFile`, and `getName` beyond storing the name.
- `get(x, y)`: the two-coordinate accessor is not modelled separately. The
  comparison uses only `get(i)`.
- The `java.awt`/`BufferedImage` internals are not modelled: an image is a
  row-major array of packed ARGB words.
- Logging, timing and the `dump`/`dumpImage`/`dumpArray` diagnostics are not
  modelled.
- The command-line driver (`PerceptualDiff.java`, `CompareArgs.java`) is not
  part of this model.
- Metric.Reason: the reason string is kept as a tag with its count, plus the
  first line of text (`Headline`). The second line, "N pixels are
  different", is not built as a string.
- 32-bit overflow of `w * h` and of the indices is not modelled: integers are
  unbounded.
- Pyramid.LPyramid.MirroredCoordinate / Comparator.YeeCompare: the blur uses
  the corrected reflection `MirrorIndex`, which reads row or column 0 where
  the Java reflection yields -1. Two different 1xN or Nx1 images (N >= 2)
  therefore get a verdict from the model, where the Java throws
  ArrayIndexOutOfBoundsException. The same holds for `Convolve` and the
  `LPyramid` constructor on such an image.
- Other Java exceptions are modelled as preconditions, for example:
  - a `Color` component outside 0..255;
  - a difference image smaller than the compared images;
  - an image of zero width or height.
- The Java `ColourSpace` constructor converts pixel i of both images in one
  loop. `Colour.ColourSpace.constructor` runs `ConvertPixels` once per image.
  Every array element receives the same value.
- Pyramid.LPyramid.constructor: the levels are built in a local sequence by
  `BuildLevels` and then stored, rather than set one by one in a list.
- Comparator.ScanPixels: the row index `y * w + x` is kept as a running row
  start, which `RowStartIsProduct` proves equal to `y * w`.
- The uniform fixed point of the blur (a constant image blurs to itself) is
  not proved. Only the kernel weights summing to one is
  (`Pyramid.KernelWeightsSumToOne`).

## Findings

| source | as written | input that shows it | evidently intended | confidence | as-written member | corrected member |
|---|---|---|---|---|---|---|
| src/org/pdiff/LPyramid.java:106-118 | the reflection takes `max(n, -n)` and then `2 * dim - n - 1` when `n >= dim`. For a dimension of 1 and an offset of 2 this gives -1 | a 1x2 image (or a 2x1 image) has 2 pixels, so its pyramid is blurred. At pixel (0, 0), tap i = 2 gives nx = -1 and index -1; the 2x1 case gives index -2. Java throws ArrayIndexOutOfBoundsException | every tap reads a pixel inside the image. The reflection of a coordinate in a 1-pixel dimension is 0 | not executed | Pyramid.TapIndexAsWrittenLeavesImage | Pyramid.MirrorIndex |
