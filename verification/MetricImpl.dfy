/**
 * Yee's perceptual comparison (MetricImpl.java).
 *
 * The first half of this module is the comparison as a value: the helper
 * formulas (adaptation level, contrast sensitivity, masking, threshold
 * versus intensity), the per-pixel verdict and `Compare`, the result every
 * run of the algorithm must produce. The second half is the algorithm as the
 * Java code performs it, on the image, colour-space and pyramid objects, and
 * each of its methods is proved to compute the specification.
 */
module Comparator {
  import opened Numerics
  import opened Images
  import opened Parameters
  import opened Metric
  import opened Colour
  import opened Pyramid

  /** Levels whose band contrast enters the threshold elevation: all but the two coarsest. */
  const ContrastLevels: int := MaxPyrLevels - 2

  // ----- Adaptation level -----

  /** The first level from i on whose pixel span 2^level exceeds n, or the coarsest level. */
  function AdaptationFrom(i: int, n: real): (r: int)
    requires 0 <= i < MaxPyrLevels
    ensures i <= r < MaxPyrLevels
    decreases MaxPyrLevels - i
  {
    if Pow2(i) > n || i == MaxPyrLevels - 1 then i else AdaptationFrom(i + 1, n)
  }

  /** The pyramid level whose pixels span more than one degree of view. */
  function AdaptationLevel(numOneDegreePixels: real): (r: int)
    ensures 0 <= r < MaxPyrLevels
  {
    AdaptationFrom(0, numOneDegreePixels)
  }

  lemma {:induction false} AdaptationFromIsFirst(i: int, n: real)
    requires 0 <= i < MaxPyrLevels
    ensures AdaptationFrom(i, n) < MaxPyrLevels - 1 ==> Pow2(AdaptationFrom(i, n)) > n
    ensures forall j :: i <= j < AdaptationFrom(i, n) ==> Pow2(j) <= n
    decreases MaxPyrLevels - i
  {
    if Pow2(i) > n || i == MaxPyrLevels - 1 {
    } else {
      AdaptationFromIsFirst(i + 1, n);
    }
  }

  /**
   * The adaptation level is the least level whose span 2^level exceeds the
   * pixels of one degree; when no level below the coarsest does, it is the
   * coarsest.
   */
  lemma AdaptationLevelIsFirstCoarseEnough(n: real)
    ensures AdaptationLevel(n) < MaxPyrLevels - 1 ==> Pow2(AdaptationLevel(n)) > n
    ensures forall j :: 0 <= j < AdaptationLevel(n) ==> Pow2(j) <= n
  {
    AdaptationFromIsFirst(0, n);
  }

  // ----- Psychophysical formulas -----

  /** Contrast sensitivity (Barten 1989) at cpd cycles per degree and luminance lum. */
  function Csf(m: MathLib, cpd: real, lum: real): (r: real)
    requires lum > 0.0
    ensures cpd == 0.0 ==> r == 0.0
  {
    var a := 440.0 * m.pow(1.0 + 0.7 / lum, -0.2);
    var b := 0.3 * m.pow(1.0 + 100.0 / lum, 0.15);
    a * cpd * m.exp(-b * cpd) * m.sqrt(1.0 + 0.06 * m.exp(b * cpd))
  }

  /** Visual masking (Daly 1993): no contrast, no masking. */
  function Mask(m: MathLib, contrast: real): (r: real)
    ensures Sound(m) && contrast == 0.0 ==> r == 1.0
  {
    var a := m.pow(392.498 * contrast, 0.7);
    var b := m.pow(0.0153 * a, 4.0);
    m.pow(1.0 + b, 0.25)
  }

  /**
   * The exponent of the threshold-versus-intensity curve (Ward Larson 1997)
   * at log10 of the adaptation luminance: a constant floor in the scotopic
   * range, Weber's law (slope one) in the two linear ranges, and two power
   * laws between them. Each range includes its lower breakpoint.
   */
  function TviExponent(m: MathLib, logA: real): (r: real)
    ensures logA < -3.94 ==> r == -2.86
    ensures -3.94 <= logA < -1.44 ==> r == m.pow(0.405 * logA + 1.6, 2.18) - 2.86
    ensures -1.44 <= logA < -0.0184 ==> r == logA - 0.395
    ensures -0.0184 <= logA < 1.9 ==> r == m.pow(0.249 * logA + 0.65, 2.7) - 0.72
    ensures 1.9 <= logA ==> r == logA - 1.255
  {
    if logA < -3.94 then -2.86
    else if logA < -1.44 then m.pow(0.405 * logA + 1.6, 2.18) - 2.86
    else if logA < -0.0184 then logA - 0.395
    else if logA < 1.9 then m.pow(0.249 * logA + 0.65, 2.7) - 0.72
    else logA - 1.255
  }

  /** The visibility threshold in cd/m^2 at an adaptation luminance: a power of ten, so positive. */
  function Tvi(m: MathLib, adaptationLuminance: real): (r: real)
    ensures Sound(m) ==> r > 0.0
  {
    m.pow(10.0, TviExponent(m, m.log10(adaptationLuminance)))
  }

  // ----- Viewing geometry and spatial frequencies -----

  /** How many pixels one degree of the field of view covers. */
  function NumOneDegreePixels(m: MathLib, fieldOfView: real): real
  {
    m.toDegrees(2.0 * m.tan(fieldOfView * m.toRadians(0.5)))
  }

  /**
   * The peak frequency of each pyramid level: level 0 resolves half the
   * pixels per degree and each further level half of the one before.
   */
  function CyclesPerDegree(pixelsPerDegree: real): (cpd: seq<real>)
    ensures |cpd| == MaxPyrLevels
    ensures cpd[0] == 0.5 * pixelsPerDegree
    ensures forall i :: 1 <= i < MaxPyrLevels ==> cpd[i] == 0.5 * cpd[i - 1]
  {
    var r := seq(MaxPyrLevels, i requires 0 <= i < MaxPyrLevels => pixelsPerDegree / Pow2(i + 1));
    forall i | 1 <= i < MaxPyrLevels
      ensures r[i] == 0.5 * r[i - 1]
    {
      HalfOfQuotient(pixelsPerDegree, Pow2(i));
    }
    r
  }

  lemma HalfOfQuotient(a: real, d: real)
    requires d > 0.0
    ensures a / (2.0 * d) == 0.5 * (a / d)
  {
    var q := a / d;
    assert a == q * d;
    assert q * 0.5 * (2.0 * d) == a;
  }

  /**
   * The frequency weight of each contrast level: the peak sensitivity over
   * the sensitivity at the level's frequency, so that weight times
   * sensitivity gives back the peak.
   */
  function FrequencyWeights(m: MathLib, cpd: seq<real>, csfMax: real): (r: seq<real>)
    requires |cpd| == MaxPyrLevels
    ensures |r| == ContrastLevels
    ensures forall i :: 0 <= i < ContrastLevels && Csf(m, cpd[i], 100.0) != 0.0 ==>
              r[i] * Csf(m, cpd[i], 100.0) == csfMax
  {
    seq(ContrastLevels, i requires 0 <= i < ContrastLevels => Quotient(csfMax, Csf(m, cpd[i], 100.0)))
  }

  /** A level that peaks at the frequency of greatest sensitivity gets weight one. */
  lemma PeakFrequencyHasUnitWeight(m: MathLib, cpd: seq<real>, i: int)
    requires |cpd| == MaxPyrLevels && 0 <= i < ContrastLevels
    requires cpd[i] == 3.248 && Csf(m, 3.248, 100.0) != 0.0
    ensures FrequencyWeights(m, cpd, Csf(m, 3.248, 100.0))[i] == 1.0
  {
    var c := Csf(m, 3.248, 100.0);
    var w := FrequencyWeights(m, cpd, c)[i];
    assert w * c == c;
    assert (w - 1.0) * c == 0.0;
  }

  /** What one comparison derives from the field of view and the image width. */
  datatype Scales = Scales(adaptationLevel: int, cpd: seq<real>, freq: seq<real>)
  {
    ghost predicate Valid()
    {
      0 <= adaptationLevel < MaxPyrLevels && |cpd| == MaxPyrLevels && |freq| == ContrastLevels
    }
  }

  function ScalesFor(m: MathLib, fieldOfView: real, width: int): (sc: Scales)
    ensures sc.Valid()
    ensures sc.adaptationLevel == AdaptationLevel(NumOneDegreePixels(m, fieldOfView))
    ensures sc.cpd[0] == 0.5 * Quotient(width as real, NumOneDegreePixels(m, fieldOfView))
  {
    var numOneDegreePixels := NumOneDegreePixels(m, fieldOfView);
    var cpd := CyclesPerDegree(Quotient(width as real, numOneDegreePixels));
    Scales(AdaptationLevel(numOneDegreePixels), cpd, FrequencyWeights(m, cpd, Csf(m, 3.248, 100.0)))
  }

  // ----- The verdict on one pixel -----

  /**
   * What the test reads at one pixel: the luminance of both images at every
   * pyramid level and the two chroma channels of both images.
   */
  datatype PixelSample = PixelSample(la: seq<real>, lb: seq<real>, aA: real, bA: real, aB: real, bB: real)
  {
    ghost predicate Valid()
    {
      |la| == MaxPyrLevels && |lb| == MaxPyrLevels
    }
  }

  /** The luminance the eye adapts to: the mean at the adaptation level, at least 1e-5. */
  function AdaptationLuminance(sc: Scales, s: PixelSample): (r: real)
    requires sc.Valid() && s.Valid()
    ensures r >= 1e-5 && r >= (s.la[sc.adaptationLevel] + s.lb[sc.adaptationLevel]) * 0.5
  {
    Max((s.la[sc.adaptationLevel] + s.lb[sc.adaptationLevel]) * 0.5, 1e-5)
  }

  /** The band contrast of level i: zero exactly when neither image changes between levels i and i + 1. */
  function Contrast(s: PixelSample, i: int): (r: real)
    requires s.Valid() && 0 <= i < ContrastLevels
    ensures r >= 0.0
    ensures r == 0.0 <==> s.la[i] == s.la[i + 1] && s.lb[i] == s.lb[i + 1]
  {
    var numerator := Max(Abs(s.la[i] - s.la[i + 1]), Abs(s.lb[i] - s.lb[i + 1]));
    var denominator := Max(Max(Abs(s.la[i + 2]), Abs(s.lb[i + 2])), 1e-5);
    QuotientOfPositive(numerator, denominator);
    numerator / denominator
  }

  lemma QuotientOfPositive(a: real, d: real)
    requires a >= 0.0 && d > 0.0
    ensures a / d >= 0.0 && (a / d == 0.0 <==> a == 0.0)
  {
    var q := a / d;
    assert q * d == a;
  }

  /** The band contrast of every contrast level. */
  function Contrasts(s: PixelSample): (r: seq<real>)
    requires s.Valid()
    ensures |r| == ContrastLevels && forall i :: 0 <= i < ContrastLevels ==> r[i] >= 0.0
  {
    seq(ContrastLevels, i requires 0 <= i < ContrastLevels => Contrast(s, i))
  }

  /** One band's share of the elevation: its contrast, times its frequency weight, times its masking. */
  function MaskedTerm(c: real, weight: real, mask: real): real
  {
    c * weight * mask
  }

  /** The masking of a band of contrast c at the given spatial frequency. */
  function BandMask(m: MathLib, c: real, frequency: real, adapt: real): real
    requires adapt > 0.0
  {
    Mask(m, c * Csf(m, frequency, adapt))
  }

  /** The masked, frequency-weighted sum of the first n band contrasts. */
  function MaskedSum(m: MathLib, sc: Scales, contrast: seq<real>, adapt: real, n: int): real
    requires sc.Valid() && |contrast| == ContrastLevels && adapt > 0.0 && 0 <= n <= ContrastLevels
  {
    if n == 0 then 0.0
    else MaskedSum(m, sc, contrast, adapt, n - 1) + MaskedTerm(contrast[n - 1], sc.freq[n - 1], BandMask(m, contrast[n - 1], sc.cpd[n - 1], adapt))
  }

  /** The plain sum of the first n band contrasts. */
  function ContrastSum(contrast: seq<real>, n: int): real
    requires 0 <= n <= |contrast|
  {
    if n == 0 then 0.0 else ContrastSum(contrast, n - 1) + contrast[n - 1]
  }

  /**
   * The threshold elevation factor: the contrast-weighted mean of the masked
   * frequency weights, clamped to [1, 10].
   */
  function ElevationFactor(m: MathLib, sc: Scales, contrast: seq<real>, adapt: real): (r: real)
    requires sc.Valid() && |contrast| == ContrastLevels && adapt > 0.0
    ensures 1.0 <= r <= 10.0
  {
    Min(Max(MaskedSum(m, sc, contrast, adapt, ContrastLevels) / Max(ContrastSum(contrast, ContrastLevels), 1e-5),
            1.0), 10.0)
  }

  lemma {:induction false} MaskedSumOfFlat(m: MathLib, sc: Scales, contrast: seq<real>, adapt: real, n: int)
    requires sc.Valid() && |contrast| == ContrastLevels && adapt > 0.0 && 0 <= n <= ContrastLevels
    requires forall i :: 0 <= i < n ==> contrast[i] == 0.0
    ensures MaskedSum(m, sc, contrast, adapt, n) == 0.0
  {
    if n > 0 {
      MaskedSumOfFlat(m, sc, contrast, adapt, n - 1);
    }
  }

  /** A pixel with no band contrast in either image keeps the bare threshold. */
  lemma FlatPixelIsNotElevated(m: MathLib, sc: Scales, s: PixelSample, adapt: real)
    requires sc.Valid() && s.Valid() && adapt > 0.0
    requires forall i :: 0 <= i < ContrastLevels ==> s.la[i] == s.la[i + 1] && s.lb[i] == s.lb[i + 1]
    ensures ElevationFactor(m, sc, Contrasts(s), adapt) == 1.0
  {
    MaskedSumOfFlat(m, sc, Contrasts(s), adapt, ContrastLevels);
  }

  /** The luminance difference at full resolution. */
  function LuminanceDelta(s: PixelSample): (r: real)
    requires s.Valid()
    ensures r >= 0.0 && (r == 0.0 <==> s.la[0] == s.lb[0])
  {
    Abs(s.la[0] - s.lb[0])
  }

  /**
   * The modified CIE delta E: the squared chroma distance scaled by the
   * colour factor, and switched off below 10 cd/m^2 where vision is
   * scotopic.
   */
  function ColourDelta(colorFactor: real, adapt: real, s: PixelSample): (r: real)
    ensures adapt < 10.0 ==> r == 0.0
    ensures colorFactor >= 0.0 ==> r >= 0.0
    ensures s.aA == s.bA && s.aB == s.bB ==> r == 0.0
  {
    var colorScale := if adapt < 10.0 then 0.0 else colorFactor;
    var da := s.aA - s.bA;
    var db := s.aB - s.bB;
    (da * da + db * db) * colorScale
  }

  /** Whether one pixel passes, and what it adds to the error sum. */
  datatype Outcome = Outcome(pass: bool, error: real)

  /**
   * The verdict on one pixel: it fails when its luminance difference exceeds
   * the elevated threshold or, unless only luminance counts, when its colour
   * difference exceeds the elevation factor.
   */
  function Judge(m: MathLib, p: PerceptualDiffParameters, sc: Scales, s: PixelSample): (o: Outcome)
    requires sc.Valid() && s.Valid()
    ensures Sound(m) && LuminanceDelta(s) > 10.0 * Tvi(m, AdaptationLuminance(sc, s)) ==> !o.pass
    ensures Sound(m) && p.luminanceOnly && LuminanceDelta(s) <= Tvi(m, AdaptationLuminance(sc, s)) ==> o.pass
    ensures p.luminanceOnly ==> o.error == LuminanceDelta(s)
    ensures p.colorFactor >= 0.0 ==> o.error >= LuminanceDelta(s)
  {
    var adapt := AdaptationLuminance(sc, s);
    var factor := ElevationFactor(m, sc, Contrasts(s), adapt);
    DecideBounds(p.luminanceOnly, factor, LuminanceDelta(s), Tvi(m, adapt), ColourDelta(p.colorFactor, adapt, s));
    Decide(p.luminanceOnly, factor, LuminanceDelta(s), Tvi(m, adapt), ColourDelta(p.colorFactor, adapt, s))
  }

  /**
   * The verdict from a pixel's readings: the luminance test fails when delta
   * exceeds factor times the threshold; unless only luminance counts, the
   * colour test fails when deltaE exceeds factor, and deltaE adds to the error.
   */
  function Decide(luminanceOnly: bool, factor: real, delta: real, threshold: real, deltaE: real): Outcome
  {
    var luminanceVisible := delta > factor * threshold;
    if luminanceOnly then Outcome(!luminanceVisible, delta)
    else Outcome(!luminanceVisible && !(deltaE > factor), delta + deltaE)
  }

  /** With the factor in [1, 10], a delta ten thresholds away always fails and one within a threshold passes the luminance test. */
  lemma DecideBounds(luminanceOnly: bool, factor: real, delta: real, threshold: real, deltaE: real)
    requires 1.0 <= factor <= 10.0
    ensures threshold > 0.0 && delta > 10.0 * threshold ==> !Decide(luminanceOnly, factor, delta, threshold, deltaE).pass
    ensures threshold > 0.0 && luminanceOnly && delta <= threshold ==> Decide(luminanceOnly, factor, delta, threshold, deltaE).pass
    ensures luminanceOnly ==> Decide(luminanceOnly, factor, delta, threshold, deltaE).error == delta
    ensures deltaE >= 0.0 ==> Decide(luminanceOnly, factor, delta, threshold, deltaE).error >= delta
  {
    ThresholdBetween(factor, threshold);
  }

  lemma ThresholdBetween(factor: real, t: real)
    requires 1.0 <= factor <= 10.0
    ensures t > 0.0 ==> t <= factor * t <= 10.0 * t
  {
    if t > 0.0 {
      assert (factor - 1.0) * t >= 0.0;
      assert (10.0 - factor) * t >= 0.0;
    }
  }

  /** A pixel that looks the same in both images at full resolution passes and adds no error. */
  lemma EqualPixelPasses(m: MathLib, p: PerceptualDiffParameters, sc: Scales, s: PixelSample)
    requires sc.Valid() && s.Valid() && Sound(m)
    requires s.la[0] == s.lb[0] && s.aA == s.bA && s.aB == s.bB
    ensures Judge(m, p, sc, s).pass && Judge(m, p, sc, s).error == 0.0
  {
    var adapt := AdaptationLuminance(sc, s);
    ThresholdBetween(ElevationFactor(m, sc, Contrasts(s), adapt), Tvi(m, adapt));
  }

  /** Below 10 cd/m^2 the colour test is off: the verdict is the luminance-only verdict. */
  lemma ScotopicPixelIgnoresColour(m: MathLib, p: PerceptualDiffParameters, sc: Scales, s: PixelSample)
    requires sc.Valid() && s.Valid()
    requires AdaptationLuminance(sc, s) < 10.0
    ensures Judge(m, p, sc, s) == Judge(m, p.(luminanceOnly := true), sc, s)
  {
  }

  /** Switching the colour test off never fails a pixel that passed. */
  lemma LuminanceOnlyPixelIsLenient(m: MathLib, p: PerceptualDiffParameters, sc: Scales, s: PixelSample)
    requires sc.Valid() && s.Valid()
    ensures Judge(m, p, sc, s).pass ==> Judge(m, p.(luminanceOnly := true), sc, s).pass
  {
  }

  /** A colour factor of zero judges a pixel exactly as the luminance-only test does. */
  lemma ZeroColourFactorPixel(m: MathLib, p: PerceptualDiffParameters, sc: Scales, s: PixelSample)
    requires sc.Valid() && s.Valid() && p.colorFactor == 0.0
    ensures Judge(m, p, sc, s) == Judge(m, p.(luminanceOnly := true), sc, s)
  {
  }

  /** Exchanging the two images exchanges every pair of readings. */
  function Swapped(s: PixelSample): (r: PixelSample)
    ensures r.la == s.lb && r.lb == s.la && r.aA == s.bA && r.bA == s.aA && r.aB == s.bB && r.bB == s.aB
  {
    PixelSample(s.lb, s.la, s.bA, s.aA, s.bB, s.aB)
  }

  lemma MaxCommutes(a: real, b: real)
    ensures Max(a, b) == Max(b, a)
  {
  }

  lemma ContrastOfSwapped(s: PixelSample, i: int)
    requires s.Valid() && 0 <= i < ContrastLevels
    ensures Contrast(Swapped(s), i) == Contrast(s, i)
  {
    var t := Swapped(s);
    MaxCommutes(Abs(s.la[i] - s.la[i + 1]), Abs(s.lb[i] - s.lb[i + 1]));
    MaxCommutes(Abs(s.la[i + 2]), Abs(s.lb[i + 2]));
    assert Max(Abs(t.la[i] - t.la[i + 1]), Abs(t.lb[i] - t.lb[i + 1])) ==
           Max(Abs(s.la[i] - s.la[i + 1]), Abs(s.lb[i] - s.lb[i + 1]));
    assert Max(Max(Abs(t.la[i + 2]), Abs(t.lb[i + 2])), 1e-5) ==
           Max(Max(Abs(s.la[i + 2]), Abs(s.lb[i + 2])), 1e-5);
  }

  lemma ContrastsOfSwapped(s: PixelSample)
    requires s.Valid()
    ensures Contrasts(Swapped(s)) == Contrasts(s)
  {
    forall i | 0 <= i < ContrastLevels
      ensures Contrasts(Swapped(s))[i] == Contrasts(s)[i]
    {
      ContrastOfSwapped(s, i);
    }
  }

  lemma SquaredDistanceSymmetric(u: real, v: real)
    ensures (v - u) * (v - u) == (u - v) * (u - v)
  {
  }

  /** The verdict on a pixel does not depend on which image is A and which is B. */
  lemma JudgeIsSymmetric(m: MathLib, p: PerceptualDiffParameters, sc: Scales, s: PixelSample)
    requires sc.Valid() && s.Valid()
    ensures Judge(m, p, sc, Swapped(s)) == Judge(m, p, sc, s)
  {
    ReadingsOfSwapped(m, p, sc, s);
  }

  lemma ReadingsOfSwapped(m: MathLib, p: PerceptualDiffParameters, sc: Scales, s: PixelSample)
    requires sc.Valid() && s.Valid()
    ensures AdaptationLuminance(sc, Swapped(s)) == AdaptationLuminance(sc, s)
    ensures Contrasts(Swapped(s)) == Contrasts(s)
    ensures ColourDelta(p.colorFactor, AdaptationLuminance(sc, s), Swapped(s)) ==
            ColourDelta(p.colorFactor, AdaptationLuminance(sc, s), s)
    ensures LuminanceDelta(Swapped(s)) == LuminanceDelta(s)
  {
    AdaptationOfSwapped(sc, s);
    ContrastsOfSwapped(s);
    ColourDeltaOfSwapped(p.colorFactor, AdaptationLuminance(sc, s), s);
    LuminanceDeltaOfSwapped(s);
  }

  lemma AdaptationOfSwapped(sc: Scales, s: PixelSample)
    requires sc.Valid() && s.Valid()
    ensures AdaptationLuminance(sc, Swapped(s)) == AdaptationLuminance(sc, s)
  {
    var t := Swapped(s);
    assert t.la[sc.adaptationLevel] + t.lb[sc.adaptationLevel] == s.la[sc.adaptationLevel] + s.lb[sc.adaptationLevel];
  }

  lemma ColourDeltaOfSwapped(colorFactor: real, adapt: real, s: PixelSample)
    ensures ColourDelta(colorFactor, adapt, Swapped(s)) == ColourDelta(colorFactor, adapt, s)
  {
    SquaredDistanceSymmetric(s.aA, s.bA);
    SquaredDistanceSymmetric(s.aB, s.bB);
  }

  lemma LuminanceDeltaOfSwapped(s: PixelSample)
    requires s.Valid()
    ensures LuminanceDelta(Swapped(s)) == LuminanceDelta(s)
  {
    var t := Swapped(s);
    assert t.la[0] - t.lb[0] == -(s.la[0] - s.lb[0]);
  }

  // ----- All pixels -----

  /** The luminance of one image at every pyramid level, read at pixel k. */
  function LevelColumn(image: seq<real>, w: int, h: int, k: int): (r: seq<real>)
    requires 0 <= w && 0 <= h && |image| == w * h && 0 <= k < w * h
    ensures |r| == MaxPyrLevels
  {
    seq(MaxPyrLevels, l requires 0 <= l < MaxPyrLevels => Level(image, w, h, l)[k])
  }

  /** The readings of every pixel, row-major, from the level-0 luminances and the chroma channels. */
  function PixelSamples(lumA: seq<real>, lumB: seq<real>, aA: seq<real>, bA: seq<real>,
                        aB: seq<real>, bB: seq<real>, w: int, h: int): (r: seq<PixelSample>)
    requires 0 <= w && 0 <= h
    requires |lumA| == |lumB| == |aA| == |bA| == |aB| == |bB| == w * h
    ensures |r| == w * h && forall k :: 0 <= k < w * h ==> r[k].Valid()
  {
    seq(w * h, k requires 0 <= k < w * h =>
      PixelSample(LevelColumn(lumA, w, h, k), LevelColumn(lumB, w, h, k), aA[k], bA[k], aB[k], bB[k]))
  }

  /** The readings of every pixel of two equally sized images. */
  function Samples(m: MathLib, gamma: real, luminance: real, a: Raster, b: Raster): (r: seq<PixelSample>)
    requires a.Valid() && b.Valid() && a.width == b.width && a.height == b.height
    ensures |r| == a.width * a.height && forall k :: 0 <= k < |r| ==> r[k].Valid()
  {
    var pa := PerceiveAll(m, a.samples, gamma, luminance);
    var pb := PerceiveAll(m, b.samples, gamma, luminance);
    PixelSamples(Luminances(pa), Luminances(pb), AChroma(pa), AChroma(pb), BChroma(pa), BChroma(pb),
                 a.width, a.height)
  }

  function Outcomes(m: MathLib, p: PerceptualDiffParameters, sc: Scales, ss: seq<PixelSample>): (r: seq<Outcome>)
    requires sc.Valid() && forall k :: 0 <= k < |ss| ==> ss[k].Valid()
    ensures |r| == |ss|
  {
    seq(|ss|, k requires 0 <= k < |ss| => Judge(m, p, sc, ss[k]))
  }

  /** The verdict on every pixel of two equally sized images. */
  function PixelOutcomes(m: MathLib, p: PerceptualDiffParameters, a: Raster, b: Raster): (r: seq<Outcome>)
    requires a.Valid() && b.Valid() && a.width == b.width && a.height == b.height
    ensures |r| == a.width * a.height
  {
    Outcomes(m, p, ScalesFor(m, p.fieldOfView, a.width), Samples(m, p.gamma, p.luminance, a, b))
  }

  /** How many pixels fail. */
  function CountFailed(os: seq<Outcome>): (r: int)
    ensures 0 <= r <= |os|
  {
    if |os| == 0 then 0 else CountFailed(os[..|os| - 1]) + (if os[|os| - 1].pass then 0 else 1)
  }

  /** The error sum, accumulated pixel after pixel. */
  function ErrorTotal(os: seq<Outcome>): real
  {
    if |os| == 0 then 0.0 else ErrorTotal(os[..|os| - 1]) + os[|os| - 1].error
  }

  lemma {:induction false} CountFailedZeroIffAllPass(os: seq<Outcome>)
    ensures CountFailed(os) == 0 <==> forall k :: 0 <= k < |os| ==> os[k].pass
  {
    if |os| > 0 {
      var init := os[..|os| - 1];
      CountFailedZeroIffAllPass(init);
      assert forall k :: 0 <= k < |init| ==> init[k] == os[k];
    }
  }

  /** Fewer failing verdicts, pixel by pixel, give a count no larger. */
  lemma {:induction false} CountFailedMonotone(os1: seq<Outcome>, os2: seq<Outcome>)
    requires |os1| == |os2|
    requires forall k :: 0 <= k < |os1| ==> os1[k].pass ==> os2[k].pass
    ensures CountFailed(os2) <= CountFailed(os1)
  {
    if |os1| > 0 {
      var n := |os1| - 1;
      CountFailedMonotone(os1[..n], os2[..n]);
    }
  }

  lemma {:induction false} ErrorTotalNonNegative(os: seq<Outcome>)
    requires forall k :: 0 <= k < |os| ==> os[k].error >= 0.0
    ensures ErrorTotal(os) >= 0.0
  {
    if |os| > 0 {
      ErrorTotalNonNegative(os[..|os| - 1]);
    }
  }

  lemma PrefixStep(os: seq<Outcome>, n: int)
    requires 0 <= n < |os|
    ensures CountFailed(os[..n + 1]) == CountFailed(os[..n]) + (if os[n].pass then 0 else 1)
    ensures ErrorTotal(os[..n + 1]) == ErrorTotal(os[..n]) + os[n].error
  {
    assert os[..n + 1][..n] == os[..n];
  }

  // ----- The comparison as a value -----

  /**
   * The result of comparing image A with image B (yeeCompare): images of
   * different sizes fail, identical words pass, and otherwise the images
   * pass when fewer pixels than the threshold fail the per-pixel test.
   */
  function Compare(m: MathLib, p: PerceptualDiffParameters, a: Raster, b: Raster,
                   imageDifference: RGBAImage?): (r: ComparisonResult)
    requires a.Valid() && b.Valid()
    ensures r.passed <==> a.width == b.width && a.height == b.height &&
                          (a.samples == b.samples || r.pixelsFailed < p.thresholdPixels)
    ensures a.width != b.width || a.height != b.height ==>
              r.reason == DimensionsDoNotMatch && r.pixelsFailed == -1 && r.errorSum == 0.0 &&
              r.imageDifference == null
    ensures a.width == b.width && a.height == b.height && a.samples == b.samples ==>
              r.reason == BinaryIdentical && r.pixelsFailed == -1 && r.errorSum == 0.0 &&
              r.imageDifference == null
    ensures a.width == b.width && a.height == b.height && a.samples != b.samples ==>
              0 <= r.pixelsFailed <= a.width * a.height && r.imageDifference == imageDifference &&
              r.reason == (if r.passed then PerceptuallyIndistinguishable(r.pixelsFailed)
                           else VisiblyDifferent(r.pixelsFailed))
  {
    if a.width != b.width || a.height != b.height then
      Verdict(false, DimensionsDoNotMatch)
    else if a.samples == b.samples then
      Verdict(true, BinaryIdentical)
    else
      var os := PixelOutcomes(m, p, a, b);
      var pixelsFailed := CountFailed(os);
      var passed := pixelsFailed < p.thresholdPixels;
      Full(passed, pixelsFailed, ErrorTotal(os), if passed then PerceptuallyIndistinguishable(pixelsFailed)
                                                 else VisiblyDifferent(pixelsFailed), imageDifference)
  }

  /** The word painted into the difference image for a passing and for a failing pixel. */
  const PassColour: int32 := ColorRgb(0, 0, 0, 255)
  const FailColour: int32 := ColorRgb(255, 0, 0, 255)

  function PaintColour(o: Outcome): int32
  {
    if o.pass then PassColour else FailColour
  }

  /** The difference image after the verdicts os are painted over its first |os| pixels. */
  function Painted(os: seq<Outcome>, before: seq<int32>): (r: seq<int32>)
    requires |os| <= |before|
    ensures |r| == |before|
  {
    seq(|before|, k requires 0 <= k < |before| => if k < |os| then PaintColour(os[k]) else before[k])
  }

  /**
   * In the painted difference image a pixel is opaque red exactly where it
   * failed, opaque black where it passed, and untouched beyond the images.
   */
  lemma PaintedMarksFailures(os: seq<Outcome>, before: seq<int32>)
    requires |os| <= |before|
    ensures forall k :: 0 <= k < |os| ==> (Painted(os, before)[k] == FailColour <==> !os[k].pass)
    ensures forall k :: 0 <= k < |os| ==> (Painted(os, before)[k] == PassColour <==> os[k].pass)
    ensures forall k :: 0 <= k < |os| ==> AlphaOf(Painted(os, before)[k]) == 255
    ensures forall k :: |os| <= k < |before| ==> Painted(os, before)[k] == before[k]
  {
    ColorRgbReadBack(0, 0, 0, 255);
    ColorRgbReadBack(255, 0, 0, 255);
  }

  /** The difference image once a comparison is over. */
  ghost function DiffAfter(m: MathLib, p: PerceptualDiffParameters, a: Raster, b: Raster,
                           before: seq<int32>): (r: seq<int32>)
    requires a.Valid() && b.Valid()
    requires a.width == b.width && a.height == b.height ==> a.width * a.height <= |before|
    ensures |r| == |before|
    ensures a.width != b.width || a.height != b.height || a.samples == b.samples ==> r == before
    ensures a.width == b.width && a.height == b.height && a.samples != b.samples ==>
              forall k :: a.width * a.height <= k < |before| ==> r[k] == before[k]
  {
    if a.width != b.width || a.height != b.height || a.samples == b.samples then before
    else Painted(PixelOutcomes(m, p, a, b), before)
  }

  // ----- Properties of the comparison -----

  lemma OutcomesOnlyReadTests(m: MathLib, p1: PerceptualDiffParameters, p2: PerceptualDiffParameters,
                              sc: Scales, ss: seq<PixelSample>)
    requires sc.Valid() && forall k :: 0 <= k < |ss| ==> ss[k].Valid()
    requires p1.luminanceOnly == p2.luminanceOnly && p1.colorFactor == p2.colorFactor
    ensures Outcomes(m, p1, sc, ss) == Outcomes(m, p2, sc, ss)
  {
    forall k | 0 <= k < |ss|
      ensures Outcomes(m, p1, sc, ss)[k] == Outcomes(m, p2, sc, ss)[k]
    {
      JudgeOnlyReadsTests(m, p1, p2, sc, ss[k]);
    }
  }

  lemma JudgeOnlyReadsTests(m: MathLib, p1: PerceptualDiffParameters, p2: PerceptualDiffParameters,
                            sc: Scales, s: PixelSample)
    requires sc.Valid() && s.Valid()
    requires p1.luminanceOnly == p2.luminanceOnly && p1.colorFactor == p2.colorFactor
    ensures Judge(m, p1, sc, s) == Judge(m, p2, sc, s)
  {
  }

  /** Raising the tolerated pixel count never turns a pass into a failure. */
  lemma ThresholdMonotone(m: MathLib, p: PerceptualDiffParameters, threshold: int,
                          a: Raster, b: Raster, imageDifference: RGBAImage?)
    requires a.Valid() && b.Valid() && threshold >= p.thresholdPixels
    ensures Compare(m, p, a, b, imageDifference).pixelsFailed ==
            Compare(m, p.(thresholdPixels := threshold), a, b, imageDifference).pixelsFailed
    ensures Compare(m, p, a, b, imageDifference).passed ==>
            Compare(m, p.(thresholdPixels := threshold), a, b, imageDifference).passed
  {
    if a.width == b.width && a.height == b.height && a.samples != b.samples {
      var q := p.(thresholdPixels := threshold);
      OutcomesOnlyReadTests(m, p, q, ScalesFor(m, p.fieldOfView, a.width), Samples(m, p.gamma, p.luminance, a, b));
    }
  }

  /** Turning the colour test off never adds a failing pixel, so never fails images that passed. */
  lemma LuminanceOnlyNeverAddsFailures(m: MathLib, p: PerceptualDiffParameters,
                                       a: Raster, b: Raster, imageDifference: RGBAImage?)
    requires a.Valid() && b.Valid()
    ensures Compare(m, p.(luminanceOnly := true), a, b, imageDifference).pixelsFailed <=
            Compare(m, p, a, b, imageDifference).pixelsFailed
    ensures Compare(m, p, a, b, imageDifference).passed ==>
            Compare(m, p.(luminanceOnly := true), a, b, imageDifference).passed
  {
    if a.width == b.width && a.height == b.height && a.samples != b.samples {
      var q := p.(luminanceOnly := true);
      var os1 := PixelOutcomes(m, p, a, b);
      var os2 := PixelOutcomes(m, q, a, b);
      var sc := ScalesFor(m, p.fieldOfView, a.width);
      var ss := Samples(m, p.gamma, p.luminance, a, b);
      forall k | 0 <= k < |os1|
        ensures os1[k].pass ==> os2[k].pass
      {
        LuminanceOnlyPixelIsLenient(m, p, sc, ss[k]);
      }
      CountFailedMonotone(os1, os2);
    }
  }

  /** With a colour factor of zero the comparison is the luminance-only comparison. */
  lemma ZeroColourFactorIsLuminanceOnly(m: MathLib, p: PerceptualDiffParameters,
                                        a: Raster, b: Raster, imageDifference: RGBAImage?)
    requires a.Valid() && b.Valid() && p.colorFactor == 0.0
    ensures Compare(m, p, a, b, imageDifference) == Compare(m, p.(luminanceOnly := true), a, b, imageDifference)
  {
    if a.width == b.width && a.height == b.height && a.samples != b.samples {
      var q := p.(luminanceOnly := true);
      var sc := ScalesFor(m, p.fieldOfView, a.width);
      var ss := Samples(m, p.gamma, p.luminance, a, b);
      forall k | 0 <= k < |ss|
        ensures Outcomes(m, p, sc, ss)[k] == Outcomes(m, q, sc, ss)[k]
      {
        ZeroColourFactorPixel(m, p, sc, ss[k]);
      }
      assert PixelOutcomes(m, p, a, b) == PixelOutcomes(m, q, a, b);
    }
  }

  /** With a non-negative colour factor the error sum is non-negative. */
  lemma ErrorSumNonNegative(m: MathLib, p: PerceptualDiffParameters,
                            a: Raster, b: Raster, imageDifference: RGBAImage?)
    requires a.Valid() && b.Valid() && p.colorFactor >= 0.0
    ensures Compare(m, p, a, b, imageDifference).errorSum >= 0.0
  {
    if a.width == b.width && a.height == b.height && a.samples != b.samples {
      ErrorTotalNonNegative(PixelOutcomes(m, p, a, b));
    }
  }

  lemma SamplesOfSwapped(m: MathLib, gamma: real, luminance: real, a: Raster, b: Raster)
    requires a.Valid() && b.Valid() && a.width == b.width && a.height == b.height
    ensures forall k :: 0 <= k < a.width * a.height ==>
              Samples(m, gamma, luminance, b, a)[k] == Swapped(Samples(m, gamma, luminance, a, b)[k])
  {
  }

  /** Comparing B with A gives the verdict, count and error sum of comparing A with B. */
  lemma CompareIsSymmetric(m: MathLib, p: PerceptualDiffParameters,
                           a: Raster, b: Raster, imageDifference: RGBAImage?)
    requires a.Valid() && b.Valid()
    ensures Compare(m, p, b, a, imageDifference) == Compare(m, p, a, b, imageDifference)
  {
    if a.width == b.width && a.height == b.height && a.samples != b.samples {
      var sc := ScalesFor(m, p.fieldOfView, a.width);
      var sab := Samples(m, p.gamma, p.luminance, a, b);
      var sba := Samples(m, p.gamma, p.luminance, b, a);
      SamplesOfSwapped(m, p.gamma, p.luminance, a, b);
      forall k | 0 <= k < |sab|
        ensures Outcomes(m, p, sc, sba)[k] == Outcomes(m, p, sc, sab)[k]
      {
        JudgeIsSymmetric(m, p, sc, sab[k]);
      }
      assert PixelOutcomes(m, p, b, a) == PixelOutcomes(m, p, a, b);
    }
  }

  // ----- The algorithm on objects -----

  /** The identity loop of yeeCompare: word by word, stopping at the first difference. */
  method AreBinaryIdentical(imageA: RGBAImage, imageB: RGBAImage) returns (identical: bool)
    requires imageA.Valid() && imageB.Valid()
    requires imageA.width == imageB.width && imageA.height == imageB.height
    ensures identical <==> imageA.pixels[..] == imageB.pixels[..]
  {
    var dim := imageA.width * imageA.height;
    identical := true;
    var i := 0;
    while i < dim
      invariant 0 <= i <= dim
      invariant forall k :: 0 <= k < i ==> imageA.pixels[k] == imageB.pixels[k]
    {
      if imageA.Get(i) != imageB.Get(i) {
        assert imageA.pixels[..][i] != imageB.pixels[..][i];
        identical := false;
        break;
      }
      i := i + 1;
    }
  }

  /** `adaptation(numOneDegreePixels)`: doubles a pixel span until it exceeds one degree. */
  method Adaptation(numOneDegreePixels: real) returns (adaptationLevel: int)
    ensures adaptationLevel == AdaptationLevel(numOneDegreePixels)
  {
    var numPixels := 1.0;
    adaptationLevel := 0;
    var i := 0;
    while i < MaxPyrLevels
      invariant 0 <= i <= MaxPyrLevels && numPixels == Pow2(i)
      invariant i < MaxPyrLevels ==> AdaptationLevel(numOneDegreePixels) == AdaptationFrom(i, numOneDegreePixels)
      invariant i == MaxPyrLevels ==> adaptationLevel == AdaptationLevel(numOneDegreePixels)
    {
      adaptationLevel := i;
      if numPixels > numOneDegreePixels {
        break;
      }
      numPixels := numPixels * 2.0;
      i := i + 1;
    }
  }

  /** The cpd table of yeeCompare: half the pixels per degree, then halved level by level. */
  method CyclesPerDegreeTable(pixelsPerDegree: real) returns (cpd: array<real>)
    ensures fresh(cpd) && cpd[..] == CyclesPerDegree(pixelsPerDegree)
  {
    ghost var spec := CyclesPerDegree(pixelsPerDegree);
    cpd := new real[MaxPyrLevels];
    cpd[0] := 0.5 * pixelsPerDegree;
    var i := 1;
    while i < MaxPyrLevels
      invariant 1 <= i <= MaxPyrLevels
      invariant forall k :: 0 <= k < i ==> cpd[k] == spec[k]
    {
      cpd[i] := 0.5 * cpd[i - 1];
      i := i + 1;
    }
  }

  /** The fFreq table of yeeCompare. */
  method FrequencyWeightTable(m: MathLib, cpd: array<real>, csfMax: real) returns (fFreq: array<real>)
    requires cpd.Length == MaxPyrLevels
    ensures fresh(fFreq) && fFreq[..] == FrequencyWeights(m, cpd[..], csfMax)
  {
    fFreq := new real[ContrastLevels];
    var i := 0;
    while i < ContrastLevels
      invariant 0 <= i <= ContrastLevels
      invariant forall k :: 0 <= k < i ==> fFreq[k] == FrequencyWeights(m, cpd[..], csfMax)[k]
    {
      fFreq[i] := Quotient(csfMax, Csf(m, cpd[i], 100.0));
      i := i + 1;
    }
  }

  /** The readings s are those of pixel k of the two pyramids and the colour space. */
  ghost predicate SampledFrom(s: PixelSample, la: LPyramid, lb: LPyramid, cs: ColourSpace, k: int)
    reads la, la.levels, lb, lb.levels, cs.aA, cs.bA, cs.aB, cs.bB
  {
    s.Valid() && la.Valid() && lb.Valid() &&
    0 <= k < la.width * la.height && 0 <= k < lb.width * lb.height &&
    k < cs.aA.Length && k < cs.bA.Length && k < cs.aB.Length && k < cs.bB.Length &&
    (forall l :: 0 <= l < MaxPyrLevels ==> s.la[l] == la.levels[l][k] && s.lb[l] == lb.levels[l][k]) &&
    s.aA == cs.aA[k] && s.bA == cs.bA[k] && s.aB == cs.aB[k] && s.bB == cs.bB[k]
  }

  /** Band contrast i in terms of the four differences and two magnitudes the level loop computes. */
  lemma ContrastFromReadings(s: PixelSample, i: int, numerator: real, denominator: real)
    requires s.Valid() && 0 <= i < ContrastLevels
    requires numerator == Max(Abs(s.la[i] - s.la[i + 1]), Abs(s.lb[i] - s.lb[i + 1]))
    requires denominator == Max(Max(Abs(s.la[i + 2]), Abs(s.lb[i + 2])), 1e-5)
    ensures Contrasts(s)[i] == numerator / denominator
  {
  }

  lemma MaskedSumStep(m: MathLib, sc: Scales, contrast: seq<real>, adapt: real, i: int)
    requires sc.Valid() && |contrast| == ContrastLevels && adapt > 0.0 && 0 <= i < ContrastLevels
    ensures MaskedSum(m, sc, contrast, adapt, i + 1) ==
            MaskedSum(m, sc, contrast, adapt, i) + MaskedTerm(contrast[i], sc.freq[i], BandMask(m, contrast[i], sc.cpd[i], adapt))
    ensures ContrastSum(contrast, i + 1) == ContrastSum(contrast, i) + contrast[i]
  {
  }

  /** Band contrast i of pixel (x, y), read from the two pyramids as the level loop of yeeCompare does. */
  method BandContrast(la: LPyramid, lb: LPyramid, x: int, y: int, i: int, ghost s: PixelSample,
                      ghost cs: ColourSpace)
    returns (contrast: real)
    requires la.width == lb.width && 0 <= x < la.width && 0 <= y < la.height && 0 <= i < ContrastLevels
    requires SampledFrom(s, la, lb, cs, x + y * la.width)
    ensures contrast == Contrasts(s)[i]
  {
    var n1 := Abs(la.GetValue(x, y, i) - la.GetValue(x, y, i + 1));
    var n2 := Abs(lb.GetValue(x, y, i) - lb.GetValue(x, y, i + 1));
    var numerator := Max(n1, n2);
    var d1 := Abs(la.GetValue(x, y, i + 2));
    var d2 := Abs(lb.GetValue(x, y, i + 2));
    var denominator := Max(Max(d1, d2), 1e-5);
    contrast := numerator / denominator;
    ContrastFromReadings(s, i, numerator, denominator);
  }

  /** The level loop of yeeCompare: the threshold elevation factor of pixel (x, y). */
  method ElevationAt(la: LPyramid, lb: LPyramid, x: int, y: int, adapt: real, m: MathLib,
                     cpd: array<real>, fFreq: array<real>, ghost sc: Scales, ghost s: PixelSample,
                     ghost cs: ColourSpace)
    returns (factor: real)
    requires la.width == lb.width && 0 <= x < la.width && 0 <= y < la.height
    requires SampledFrom(s, la, lb, cs, x + y * la.width)
    requires sc.Valid() && sc.cpd == cpd[..] && sc.freq == fFreq[..] && adapt > 0.0
    ensures factor == ElevationFactor(m, sc, Contrasts(s), adapt)
  {
    ghost var contrasts := Contrasts(s);
    var sumContrast := 0.0;
    factor := 0.0;
    var i := 0;
    while i < ContrastLevels
      invariant 0 <= i <= ContrastLevels
      invariant factor == MaskedSum(m, sc, contrasts, adapt, i)
      invariant sumContrast == ContrastSum(contrasts, i)
    {
      var contrast := BandContrast(la, lb, x, y, i, s, cs);
      var fMask := BandMask(m, contrast, cpd[i], adapt);
      assert cpd[i] == sc.cpd[i] && fFreq[i] == sc.freq[i];
      MaskedSumStep(m, sc, contrasts, adapt, i);
      factor := factor + MaskedTerm(contrast, fFreq[i], fMask);
      sumContrast := sumContrast + contrast;
      i := i + 1;
    }
    sumContrast := Max(sumContrast, 1e-5);
    factor := factor / sumContrast;
    factor := Min(Max(factor, 1.0), 10.0);
  }

  /** The colour difference in the terms the pixel loop computes it. */
  lemma ColourDeltaFromReadings(colorFactor: real, adapt: real, s: PixelSample, da: real, db: real, colorScale: real)
    requires da == s.aA - s.bA && db == s.aB - s.bB
    requires colorScale == if adapt < 10.0 then 0.0 else colorFactor
    ensures (da * da + db * db) * colorScale == ColourDelta(colorFactor, adapt, s)
  {
  }

  /** The verdict in the terms the pixel loop computes it. */
  lemma DecideFromReadings(luminanceOnly: bool, factor: real, delta: real, m: MathLib, adapt: real, deltaE: real)
    ensures Decide(luminanceOnly, factor, delta, Tvi(m, adapt), deltaE).pass ==
            (!(delta > factor * Tvi(m, adapt)) && (luminanceOnly || !(deltaE > factor)))
    ensures Decide(luminanceOnly, factor, delta, Tvi(m, adapt), deltaE).error ==
            if luminanceOnly then delta else delta + deltaE
  {
  }

  /** The body of the pixel loop of yeeCompare up to the verdict: whether pixel (x, y) passes and its error. */
  method TestPixel(la: LPyramid, lb: LPyramid, cs: ColourSpace, x: int, y: int, index: int,
                   adaptationLevel: int, cpd: array<real>, fFreq: array<real>,
                   params: PerceptualDiffParameters, m: MathLib, ghost sc: Scales, ghost s: PixelSample)
    returns (pass: bool, error: real)
    requires la.width == lb.width && 0 <= x < la.width && 0 <= y < la.height && index == x + y * la.width
    requires SampledFrom(s, la, lb, cs, index)
    requires sc.Valid() && sc.adaptationLevel == adaptationLevel && sc.cpd == cpd[..] && sc.freq == fFreq[..]
    ensures pass == Judge(m, params, sc, s).pass && error == Judge(m, params, sc, s).error
  {
    var adapt := Max((la.GetValue(x, y, adaptationLevel) + lb.GetValue(x, y, adaptationLevel)) * 0.5, 1e-5);
    assert adapt == AdaptationLuminance(sc, s);
    var factor := ElevationAt(la, lb, x, y, adapt, m, cpd, fFreq, sc, s, cs);
    var delta := Abs(la.GetValue(x, y, 0) - lb.GetValue(x, y, 0));
    assert delta == LuminanceDelta(s);
    ghost var colour := ColourDelta(params.colorFactor, adapt, s);
    error := delta;
    pass := true;
    if delta > factor * Tvi(m, adapt) {
      pass := false;
    }
    if !params.luminanceOnly {
      var colorScale := params.colorFactor;
      if adapt < 10.0 {
        colorScale := 0.0;
      }
      var da := cs.aA[index] - cs.bA[index];
      var db := cs.aB[index] - cs.bB[index];
      var deltaE := (da * da + db * db) * colorScale;
      ColourDeltaFromReadings(params.colorFactor, adapt, s, da, db, colorScale);
      error := error + deltaE;
      if deltaE > factor {
        pass := false;
      }
    }
    DecideFromReadings(params.luminanceOnly, factor, delta, m, adapt, colour);
  }

  /**
   * The index y * w of the first pixel of row y in a row-major raster whose
   * rows are w pixels wide, written as the running sum the pixel loop keeps.
   */
  function RowStart(y: nat, w: int): int
  {
    if y == 0 then 0 else RowStart(y - 1, w) + w
  }

  lemma {:induction false} RowStartIsProduct(y: nat, w: int)
    ensures RowStart(y, w) == y * w
  {
    if y > 0 {
      RowStartIsProduct(y - 1, w);
    }
  }

  /** A raster of h rows w pixels wide has w * h pixels, the start of a row past the last. */
  lemma RowsCover(h: nat, w: int, n: int)
    requires n == w * h
    ensures RowStart(h, w) == n
  {
    RowStartIsProduct(h, w);
  }

  lemma RowStartNext(y: nat, w: int)
    ensures RowStart(y + 1, w) == RowStart(y, w) + w
  {
  }

  /** Later rows start later: row y + 1 starts no later than row h when y < h. */
  lemma {:induction false} RowStartMono(y: nat, h: nat, w: int)
    requires y <= h && 0 <= w
    ensures RowStart(y, w) <= RowStart(h, w)
  {
    if y < h {
      RowStartMono(y, h - 1, w);
    }
  }

  /** Painting one more verdict changes exactly the next pixel of the difference image. */
  lemma PaintedStep(os: seq<Outcome>, before: seq<int32>, n: int)
    requires 0 <= n < |os| <= |before|
    ensures Painted(os[..n + 1], before) == Painted(os[..n], before)[n := PaintColour(os[n])]
  {
  }

  /** Every sample k holds the readings of pixel k. */
  ghost predicate AllSampled(samples: seq<PixelSample>, la: LPyramid, lb: LPyramid, cs: ColourSpace)
    reads la, la.levels, lb, lb.levels, cs.aA, cs.bA, cs.aB, cs.bB
  {
    forall k {:trigger SampledFrom(samples[k], la, lb, cs, k)} :: 0 <= k < |samples| ==> SampledFrom(samples[k], la, lb, cs, k)
  }

  /** os holds the verdict on every sample of ss. */
  ghost predicate JudgedAll(os: seq<Outcome>, m: MathLib, p: PerceptualDiffParameters, sc: Scales, ss: seq<PixelSample>)
    requires sc.Valid() && forall k :: 0 <= k < |ss| ==> ss[k].Valid()
  {
    |os| == |ss| &&
    forall k {:trigger Judge(m, p, sc, ss[k])} :: 0 <= k < |ss| ==> os[k] == Judge(m, p, sc, ss[k])
  }

  lemma OutcomesJudged(m: MathLib, p: PerceptualDiffParameters, sc: Scales, ss: seq<PixelSample>)
    requires sc.Valid() && forall k :: 0 <= k < |ss| ==> ss[k].Valid()
    ensures JudgedAll(Outcomes(m, p, sc, ss), m, p, sc, ss)
  {
  }

  /** Painting the verdict on pixel n of the difference image. */
  method PaintPixel(imageDifference: RGBAImage, ghost os: seq<Outcome>, ghost before: seq<int32>, n: int, pass: bool,
                    ghost samples: seq<PixelSample>, la: LPyramid, lb: LPyramid, cs: ColourSpace)
    requires imageDifference.Valid() && 0 <= n < |os| <= |before| == imageDifference.pixels.Length
    requires os[n].pass == pass && imageDifference.pixels[..] == Painted(os[..n], before)
    requires AllSampled(samples, la, lb, cs)
    modifies imageDifference.pixels
    ensures imageDifference.pixels[..] == Painted(os[..n + 1], before)
    ensures AllSampled(samples, la, lb, cs)
  {
    PaintedStep(os, before, n);
    if pass {
      imageDifference.Set(0, 0, 0, 255, n);
    } else {
      imageDifference.Set(255, 0, 0, 255, n);
    }
  }

  /**
   * Pixel (x, y) of the pixel loop of yeeCompare, whose index is index:
   * the pixel is judged, its failure counted, its error summed and its
   * verdict painted into the difference image when there is one.
   */
  method ScanPixel(la: LPyramid, lb: LPyramid, cs: ColourSpace, x: int, y: int, index: int, adaptationLevel: int,
                   cpd: array<real>, fFreq: array<real>, params: PerceptualDiffParameters, m: MathLib,
                   imageDifference: RGBAImage?, ghost sc: Scales, ghost samples: seq<PixelSample>, ghost os: seq<Outcome>,
                   ghost before: seq<int32>, pixelsFailed0: int, errorSum0: real)
    returns (pixelsFailed: int, errorSum: real)
    requires la.width == lb.width && 0 <= x < la.width && 0 <= y < la.height && index == x + RowStart(y, la.width)
    requires 0 <= index < |samples|
    requires (forall k :: 0 <= k < |samples| ==> samples[k].Valid()) && AllSampled(samples, la, lb, cs)
    requires sc.Valid() && sc.adaptationLevel == adaptationLevel && sc.cpd == cpd[..] && sc.freq == fFreq[..]
    requires JudgedAll(os, m, params, sc, samples)
    requires imageDifference != null ==>
               imageDifference.Valid() && |samples| <= |before| == imageDifference.pixels.Length
    requires pixelsFailed0 == CountFailed(os[..index])
    requires errorSum0 == ErrorTotal(os[..index])
    requires imageDifference != null ==>
               imageDifference.pixels[..] == Painted(os[..index], before)
    modifies if imageDifference != null then {imageDifference.pixels} else {}
    ensures AllSampled(samples, la, lb, cs)
    ensures pixelsFailed == CountFailed(os[..index + 1])
    ensures errorSum == ErrorTotal(os[..index + 1])
    ensures imageDifference != null ==>
              imageDifference.pixels[..] == Painted(os[..index + 1], before)
  {
    RowStartIsProduct(y, la.width);
    var pass, error := TestPixel(la, lb, cs, x, y, index, adaptationLevel, cpd, fFreq, params, m, sc,
                                 samples[index]);
    PrefixStep(os, index);
    errorSum := errorSum0 + error;
    pixelsFailed := pixelsFailed0;
    if !pass {
      pixelsFailed := pixelsFailed + 1;
    }
    if imageDifference != null {
      PaintPixel(imageDifference, os, before, index, pass, samples, la, lb, cs);
    }
  }

  /** Row y of the pixel loop of yeeCompare, whose first pixel has index rowStart. */
  method ScanRow(la: LPyramid, lb: LPyramid, cs: ColourSpace, y: int, adaptationLevel: int,
                 cpd: array<real>, fFreq: array<real>, params: PerceptualDiffParameters, m: MathLib,
                 imageDifference: RGBAImage?, ghost sc: Scales, ghost samples: seq<PixelSample>, ghost os: seq<Outcome>,
                 ghost before: seq<int32>, rowStart: int, pixelsFailed0: int, errorSum0: real)
    returns (pixelsFailed: int, errorSum: real)
    requires 0 <= la.width && la.width == lb.width && 0 <= y < la.height
    requires rowStart == RowStart(y, la.width) && 0 <= rowStart && rowStart + la.width <= |samples|
    requires (forall k :: 0 <= k < |samples| ==> samples[k].Valid()) && AllSampled(samples, la, lb, cs)
    requires sc.Valid() && sc.adaptationLevel == adaptationLevel && sc.cpd == cpd[..] && sc.freq == fFreq[..]
    requires JudgedAll(os, m, params, sc, samples)
    requires imageDifference != null ==>
               imageDifference.Valid() && |samples| <= |before| == imageDifference.pixels.Length
    requires pixelsFailed0 == CountFailed(os[..rowStart])
    requires errorSum0 == ErrorTotal(os[..rowStart])
    requires imageDifference != null ==>
               imageDifference.pixels[..] == Painted(os[..rowStart], before)
    modifies if imageDifference != null then {imageDifference.pixels} else {}
    ensures AllSampled(samples, la, lb, cs)
    ensures pixelsFailed == CountFailed(os[..rowStart + la.width])
    ensures errorSum == ErrorTotal(os[..rowStart + la.width])
    ensures imageDifference != null ==>
              imageDifference.pixels[..] == Painted(os[..rowStart + la.width], before)
  {
    pixelsFailed, errorSum := pixelsFailed0, errorSum0;
    var x := 0;
    var index := rowStart;
    while x < la.width
      invariant 0 <= x <= la.width && index == rowStart + x
      invariant AllSampled(samples, la, lb, cs)
      invariant pixelsFailed == CountFailed(os[..index])
      invariant errorSum == ErrorTotal(os[..index])
      invariant imageDifference != null ==>
                  imageDifference.pixels[..] == Painted(os[..index], before)
    {
      pixelsFailed, errorSum := ScanPixel(la, lb, cs, x, y, index, adaptationLevel, cpd, fFreq, params, m,
                                          imageDifference, sc, samples, os, before, pixelsFailed, errorSum);
      x := x + 1;
      index := index + 1;
    }
  }

  /** Rows 0 to height - 1 of the pixel loop of yeeCompare, painting over the words before. */
  method ScanRows(la: LPyramid, lb: LPyramid, cs: ColourSpace, adaptationLevel: int,
                  cpd: array<real>, fFreq: array<real>, params: PerceptualDiffParameters, m: MathLib,
                  imageDifference: RGBAImage?, ghost sc: Scales, ghost samples: seq<PixelSample>, ghost os: seq<Outcome>,
                  ghost before: seq<int32>)
    returns (pixelsFailed: int, errorSum: real)
    requires 0 <= la.width && 0 <= la.height && la.width == lb.width && |samples| == RowStart(la.height, la.width)
    requires (forall k :: 0 <= k < |samples| ==> samples[k].Valid()) && AllSampled(samples, la, lb, cs)
    requires sc.Valid() && sc.adaptationLevel == adaptationLevel && sc.cpd == cpd[..] && sc.freq == fFreq[..]
    requires JudgedAll(os, m, params, sc, samples)
    requires imageDifference != null ==>
               imageDifference.Valid() && |samples| <= |before| == imageDifference.pixels.Length &&
               imageDifference.pixels[..] == before
    modifies if imageDifference != null then {imageDifference.pixels} else {}
    ensures pixelsFailed == CountFailed(os) && errorSum == ErrorTotal(os)
    ensures imageDifference != null ==> imageDifference.pixels[..] == Painted(os, before)
  {
    pixelsFailed := 0;
    errorSum := 0.0;
    var y := 0;
    var rowStart := 0;
    while y < la.height
      invariant 0 <= y <= la.height && rowStart == RowStart(y, la.width) && 0 <= rowStart <= |os|
      invariant AllSampled(samples, la, lb, cs)
      invariant pixelsFailed == CountFailed(os[..rowStart]) && errorSum == ErrorTotal(os[..rowStart])
      invariant imageDifference != null ==> imageDifference.pixels[..] == Painted(os[..rowStart], before)
    {
      RowStartNext(y, la.width);
      RowStartMono(y + 1, la.height, la.width);
      pixelsFailed, errorSum := ScanRow(la, lb, cs, y, adaptationLevel, cpd, fFreq, params, m, imageDifference,
                                        sc, samples, os, before, rowStart, pixelsFailed, errorSum);
      rowStart := rowStart + la.width;
      y := y + 1;
    }
    assert os[..rowStart] == os;
  }

  /**
   * The pixel loop of yeeCompare: every pixel in row-major order is judged,
   * the failures are counted, the errors summed, and the verdicts painted
   * into the difference image when there is one.
   */
  method ScanPixels(la: LPyramid, lb: LPyramid, cs: ColourSpace, adaptationLevel: int,
                    cpd: array<real>, fFreq: array<real>, params: PerceptualDiffParameters, m: MathLib,
                    imageDifference: RGBAImage?, ghost sc: Scales, ghost samples: seq<PixelSample>)
    returns (pixelsFailed: int, errorSum: real)
    requires 0 <= la.width && 0 <= la.height && la.width == lb.width && la.height == lb.height
    requires |samples| == la.width * la.height
    requires (forall k :: 0 <= k < |samples| ==> samples[k].Valid()) && AllSampled(samples, la, lb, cs)
    requires sc.Valid() && sc.adaptationLevel == adaptationLevel && sc.cpd == cpd[..] && sc.freq == fFreq[..]
    requires imageDifference != null ==>
               imageDifference.Valid() && |samples| <= imageDifference.width * imageDifference.height
    modifies if imageDifference != null then {imageDifference.pixels} else {}
    ensures pixelsFailed == CountFailed(Outcomes(m, params, sc, samples))
    ensures errorSum == ErrorTotal(Outcomes(m, params, sc, samples))
    ensures imageDifference != null ==>
              imageDifference.pixels[..] == Painted(Outcomes(m, params, sc, samples), old(imageDifference.pixels[..]))
  {
    ghost var os := Outcomes(m, params, sc, samples);
    ghost var before := if imageDifference != null then imageDifference.pixels[..] else [];
    RowsCover(la.height, la.width, |samples|);
    OutcomesJudged(m, params, sc, samples);
    pixelsFailed, errorSum := ScanRows(la, lb, cs, adaptationLevel, cpd, fFreq, params, m, imageDifference,
                                       sc, samples, os, before);
  }

  /** The three channel arrays of one image, as sequences, are its per-pixel conversions. */
  lemma ChannelsOfImage(m: MathLib, gamma: real, luminance: real, image: RGBAImage,
                        lum: array<real>, a: array<real>, b: array<real>)
    requires lum.Length == a.Length == b.Length == image.pixels.Length
    requires forall i :: 0 <= i < lum.Length ==>
               var p := Perceive(m, image.pixels[i], gamma, luminance);
               lum[i] == p.lum && a[i] == p.a && b[i] == p.b
    ensures lum[..] == Luminances(PerceiveAll(m, image.pixels[..], gamma, luminance))
    ensures a[..] == AChroma(PerceiveAll(m, image.pixels[..], gamma, luminance))
    ensures b[..] == BChroma(PerceiveAll(m, image.pixels[..], gamma, luminance))
  {
  }

  /**
   * Pyramids built over the luminances of two images and the chroma
   * channels of their colour space hold, at every pixel, the readings
   * Samples describes.
   */
  lemma SampledFromImages(m: MathLib, gamma: real, luminance: real, a: Raster, b: Raster,
                          la: LPyramid, lb: LPyramid, cs: ColourSpace)
    requires a.Valid() && b.Valid() && a.width == b.width && a.height == b.height
    requires la.Valid() && lb.Valid() && la.width == lb.width == a.width && la.height == lb.height == a.height
    requires la.levels[0][..] == Luminances(PerceiveAll(m, a.samples, gamma, luminance))
    requires lb.levels[0][..] == Luminances(PerceiveAll(m, b.samples, gamma, luminance))
    requires cs.aA[..] == AChroma(PerceiveAll(m, a.samples, gamma, luminance))
    requires cs.bA[..] == AChroma(PerceiveAll(m, b.samples, gamma, luminance))
    requires cs.aB[..] == BChroma(PerceiveAll(m, a.samples, gamma, luminance))
    requires cs.bB[..] == BChroma(PerceiveAll(m, b.samples, gamma, luminance))
    ensures AllSampled(Samples(m, gamma, luminance, a, b), la, lb, cs)
  {
    var ss := Samples(m, gamma, luminance, a, b);
    forall k | 0 <= k < |ss|
      ensures SampledFrom(ss[k], la, lb, cs, k)
    {
      forall l | 0 <= l < MaxPyrLevels
        ensures ss[k].la[l] == la.levels[l][k] && ss[k].lb[l] == lb.levels[l][k]
      {
        assert la.levels[l][..] == Level(la.levels[0][..], la.width, la.height, l);
        assert lb.levels[l][..] == Level(lb.levels[0][..], lb.width, lb.height, l);
      }
    }
  }

  /**
   * The viewing set-up of yeeCompare: the adaptation level, the cpd table
   * and the frequency weights for images w pixels wide seen under the given
   * field of view.
   */
  method ViewingScales(m: MathLib, fieldOfView: real, w: int)
    returns (adaptationLevel: int, cpd: array<real>, fFreq: array<real>)
    ensures fresh(cpd) && fresh(fFreq)
    ensures ScalesFor(m, fieldOfView, w) == Scales(adaptationLevel, cpd[..], fFreq[..])
  {
    var numOneDegreePixels := NumOneDegreePixels(m, fieldOfView);
    var pixelsPerDegree := Quotient(w as real, numOneDegreePixels);
    adaptationLevel := Adaptation(numOneDegreePixels);
    cpd := CyclesPerDegreeTable(pixelsPerDegree);
    var csfMax := Csf(m, 3.248, 100.0);
    fFreq := FrequencyWeightTable(m, cpd, csfMax);
  }

  /**
   * The colour conversion and the two luminance pyramids of yeeCompare:
   * together they hold, at every pixel, the readings Samples describes.
   */
  method ConvertAndBlur(imageA: RGBAImage, imageB: RGBAImage, params: PerceptualDiffParameters, m: MathLib)
    returns (colourSpace: ColourSpace, la: LPyramid, lb: LPyramid)
    requires imageA.Valid() && imageB.Valid()
    requires imageA.width == imageB.width && imageA.height == imageB.height
    ensures la.width == lb.width == imageA.width && la.height == lb.height == imageA.height
    ensures AllSampled(Samples(m, params.gamma, params.luminance, imageA.Contents(), imageB.Contents()),
                       la, lb, colourSpace)
  {
    var w := imageA.width;
    var h := imageA.height;
    colourSpace := new ColourSpace(imageA, imageB, params.gamma, params.luminance, m);
    ChannelsOfImage(m, params.gamma, params.luminance, imageA, colourSpace.aLum, colourSpace.aA, colourSpace.aB);
    ChannelsOfImage(m, params.gamma, params.luminance, imageB, colourSpace.bLum, colourSpace.bA, colourSpace.bB);
    la := new LPyramid(colourSpace.aLum, w, h);
    lb := new LPyramid(colourSpace.bLum, w, h);
    SampledFromImages(m, params.gamma, params.luminance, imageA.Contents(), imageB.Contents(), la, lb, colourSpace);
  }

  /**
   * The perceptual test of yeeCompare, for two equally sized images that
   * are not binary identical: colour conversion, pyramids, viewing set-up,
   * the pixel loop and the verdict on the failure count.
   */
  method PerceptualTest(imageA: RGBAImage, imageB: RGBAImage, params: PerceptualDiffParameters,
                        imageDifference: RGBAImage?, m: MathLib)
    returns (result: ComparisonResult)
    requires imageA.Valid() && imageB.Valid()
    requires imageA.width == imageB.width && imageA.height == imageB.height
    requires imageA.pixels[..] != imageB.pixels[..]
    requires imageDifference != null ==>
               imageDifference.Valid() && imageA.width * imageA.height <= imageDifference.width * imageDifference.height
    modifies if imageDifference != null then {imageDifference.pixels} else {}
    ensures result == Compare(m, params, old(imageA.Contents()), old(imageB.Contents()), imageDifference)
    ensures imageDifference != null ==>
              imageDifference.pixels[..] ==
              Painted(PixelOutcomes(m, params, old(imageA.Contents()), old(imageB.Contents())),
                      old(imageDifference.pixels[..]))
  {
    ghost var a, b := imageA.Contents(), imageB.Contents();
    var w := imageA.width;
    var colourSpace, la, lb := ConvertAndBlur(imageA, imageB, params, m);
    var adaptationLevel, cpd, fFreq := ViewingScales(m, params.fieldOfView, w);
    ghost var sc := ScalesFor(m, params.fieldOfView, w);
    ghost var samples := Samples(m, params.gamma, params.luminance, a, b);
    var pixelsFailed, errorSum := ScanPixels(la, lb, colourSpace, adaptationLevel, cpd, fFreq, params, m,
                                             imageDifference, sc, samples);
    var passed := pixelsFailed < params.thresholdPixels;
    var reason := if passed then PerceptuallyIndistinguishable(pixelsFailed) else VisiblyDifferent(pixelsFailed);
    result := Full(passed, pixelsFailed, errorSum, reason, imageDifference);
  }

  /**
   * `yeeCompare(imageA, imageB, params, imageDifference)`: the result is the
   * comparison of the two images as they were on entry, and the difference
   * image, when one is given, ends up painted with the verdicts.
   */
  method YeeCompare(imageA: RGBAImage, imageB: RGBAImage, params: PerceptualDiffParameters,
                    imageDifference: RGBAImage?, m: MathLib)
    returns (result: ComparisonResult)
    requires imageA.Valid() && imageB.Valid()
    requires imageA.width == imageB.width && imageA.height == imageB.height && imageDifference != null ==>
               imageDifference.Valid() && imageA.width * imageA.height <= imageDifference.width * imageDifference.height
    modifies if imageDifference != null then {imageDifference.pixels} else {}
    ensures result == Compare(m, params, old(imageA.Contents()), old(imageB.Contents()), imageDifference)
    ensures imageDifference != null ==>
              imageDifference.pixels[..] ==
              DiffAfter(m, params, old(imageA.Contents()), old(imageB.Contents()), old(imageDifference.pixels[..]))
  {
    if imageA.width != imageB.width || imageA.height != imageB.height {
      return Verdict(false, DimensionsDoNotMatch);
    }
    var identical := AreBinaryIdentical(imageA, imageB);
    if identical {
      return Verdict(true, BinaryIdentical);
    }
    result := PerceptualTest(imageA, imageB, params, imageDifference, m);
  }
}
