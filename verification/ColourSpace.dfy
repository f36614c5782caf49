/**
 * Colour conversion (ColourSpace.java): per pixel, alpha premultiplication
 * and gamma, the linear Adobe RGB (1998)/D65 to XYZ map, and the CIE 1976
 * L*a*b* nonlinearity of CIE 15:2004 section 8.2.1, relative to the XYZ image
 * of RGB white.
 */
module Colour {
  import opened Numerics
  import opened Images

  datatype Xyz = Xyz(x: real, y: real, z: real)

  datatype Lab = Lab(l: real, a: real, b: real)

  /** Adobe RGB (1998) with reference white D65 to XYZ; the matrix is Lindbloom's. */
  function AdobeRgbToXyz(r: real, g: real, b: real): Xyz
  {
    Xyz(r * 0.576700 + g * 0.185556 + b * 0.188212,
        r * 0.297361 + g * 0.627355 + b * 0.0752847,
        r * 0.0270328 + g * 0.0706879 + b * 0.991248)
  }

  /** The reference white: the image of RGB (1, 1, 1). */
  const GlobalWhite: Xyz := AdobeRgbToXyz(1.0, 1.0, 1.0)

  /** The conversion is linear: it commutes with scaling and adding RGB triples. */
  lemma AdobeRgbToXyzIsLinear(c: real, r1: real, g1: real, b1: real, r2: real, g2: real, b2: real)
    ensures var p, q, s := AdobeRgbToXyz(r1, g1, b1), AdobeRgbToXyz(r2, g2, b2),
                          AdobeRgbToXyz(c * r1 + r2, c * g1 + g2, c * b1 + b2);
            s == Xyz(c * p.x + q.x, c * p.y + q.y, c * p.z + q.z)
  {
    var s := AdobeRgbToXyz(c * r1 + r2, c * g1 + g2, c * b1 + b2);
    assert s.x == c * (r1 * 0.576700 + g1 * 0.185556 + b1 * 0.188212) + (r2 * 0.576700 + g2 * 0.185556 + b2 * 0.188212);
    assert s.y == c * (r1 * 0.297361 + g1 * 0.627355 + b1 * 0.0752847) + (r2 * 0.297361 + g2 * 0.627355 + b2 * 0.0752847);
    assert s.z == c * (r1 * 0.0270328 + g1 * 0.0706879 + b1 * 0.991248) + (r2 * 0.0270328 + g2 * 0.0706879 + b2 * 0.991248);
  }

  /** The reference white is the vector of the matrix's row sums. */
  lemma GlobalWhiteIsRowSums()
    ensures GlobalWhite == Xyz(0.950468, 1.0000007, 1.0889687)
  {
    assert GlobalWhite == AdobeRgbToXyz(1.0, 1.0, 1.0);
  }

  /** CIE epsilon, 216/24389, in its exact rational form. */
  const Epsilon: real := 216.0 / 24389.0

  /** CIE kappa, 24389/27, in its exact rational form. */
  const Kappa: real := 24389.0 / 27.0

  /** The CIE nonlinearity: a cube root above epsilon, a line at or below it. */
  function LabF(m: MathLib, r: real): real
  {
    if r > Epsilon then m.pow(r, 1.0 / 3.0) else (Kappa * r + 16.0) / 116.0
  }

  /**
   * The exact constants make the two pieces meet: at epsilon the line gives
   * 6/29, whose cube is epsilon.
   */
  lemma LabFPiecesMeetAtEpsilon(m: MathLib)
    ensures LabF(m, Epsilon) == 6.0 / 29.0
    ensures (6.0 / 29.0) * (6.0 / 29.0) * (6.0 / 29.0) == Epsilon
  {
  }

  /** XYZ to L*a*b*, each component divided by the reference white's. */
  function XyzToLab(m: MathLib, c: Xyz): Lab
  {
    var fx := LabF(m, c.x / GlobalWhite.x);
    var fy := LabF(m, c.y / GlobalWhite.y);
    var fz := LabF(m, c.z / GlobalWhite.z);
    Lab(116.0 * fy - 16.0, 500.0 * (fx - fy), 200.0 * (fy - fz))
  }

  /** Black: every ratio is 0, every f is 16/116, and L, a, b are all 0. */
  lemma LabOfBlack(m: MathLib)
    ensures XyzToLab(m, Xyz(0.0, 0.0, 0.0)) == Lab(0.0, 0.0, 0.0)
  {
  }

  /**
   * A neutral colour, R = G = B = c, is c times the reference white; the
   * three ratios are equal, so a and b are 0 whatever the nonlinearity does.
   */
  lemma NeutralHasNoChroma(m: MathLib, c: real)
    ensures AdobeRgbToXyz(c, c, c) == Xyz(c * GlobalWhite.x, c * GlobalWhite.y, c * GlobalWhite.z)
    ensures XyzToLab(m, AdobeRgbToXyz(c, c, c)).a == 0.0
    ensures XyzToLab(m, AdobeRgbToXyz(c, c, c)).b == 0.0
  {
    var w := AdobeRgbToXyz(c, c, c);
    assert w.x / GlobalWhite.x == c;
    assert w.y / GlobalWhite.y == c;
    assert w.z / GlobalWhite.z == c;
  }

  /** What the comparator keeps of one pixel: scaled luminance and the a, b chroma. */
  datatype Perceived = Perceived(lum: real, a: real, b: real)

  /**
   * One pixel of one image from its four 8-bit channels: premultiply each
   * colour channel by alpha, apply gamma, convert to XYZ and then L*a*b*; the
   * luminance channel is XYZ's y times the display luminance.
   */
  function PerceiveChannels(m: MathLib, red: int, green: int, blue: int, alpha: int,
                            gamma: real, luminance: real): Perceived
  {
    var a := alpha as real / 255.0;
    var r := m.pow(red as real / 255.0 * a, gamma);
    var g := m.pow(green as real / 255.0 * a, gamma);
    var b := m.pow(blue as real / 255.0 * a, gamma);
    var xyz := AdobeRgbToXyz(r, g, b);
    var lab := XyzToLab(m, xyz);
    Perceived(xyz.y * luminance, lab.a, lab.b)
  }

  /** One pixel of one image, its channels read with the accessors of RGBAImage. */
  function Perceive(m: MathLib, s: int32, gamma: real, luminance: real): Perceived
  {
    PerceiveChannels(m, RedOf(s), GreenOf(s), BlueOf(s), AlphaOf(s), gamma, luminance)
  }

  /**
   * The display luminance scales the luminance channel and leaves the chroma
   * alone.
   */
  lemma DisplayLuminanceScalesOnlyLuminance(m: MathLib, red: int, green: int, blue: int, alpha: int,
                                            gamma: real, l1: real, l2: real)
    requires l1 != 0.0
    ensures var p1, p2 := PerceiveChannels(m, red, green, blue, alpha, gamma, l1),
                          PerceiveChannels(m, red, green, blue, alpha, gamma, l2);
            p2.lum * l1 == p1.lum * l2 && p2.a == p1.a && p2.b == p1.b
  {
  }

  /**
   * Premultiplication: a transparent pixel, or one whose colour channels are
   * all 0, is black, with no luminance and no chroma.
   */
  lemma PremultipliedBlack(m: MathLib, red: int, green: int, blue: int, alpha: int,
                           gamma: real, luminance: real)
    requires Sound(m) && gamma > 0.0
    requires alpha == 0 || (red == 0 && green == 0 && blue == 0)
    ensures PerceiveChannels(m, red, green, blue, alpha, gamma, luminance) == Perceived(0.0, 0.0, 0.0)
  {
    var a := alpha as real / 255.0;
    assert red as real / 255.0 * a == 0.0;
    assert green as real / 255.0 * a == 0.0;
    assert blue as real / 255.0 * a == 0.0;
    assert AdobeRgbToXyz(0.0, 0.0, 0.0) == Xyz(0.0, 0.0, 0.0);
    LabOfBlack(m);
  }

  /**
   * Hence differences in alpha are not seen where the colour is black: two
   * words whose colour bytes are 0 look the same to the comparator whatever
   * their alpha bytes.
   */
  lemma AlphaOverBlackIsInvisible(m: MathLib, s1: int32, s2: int32, gamma: real, luminance: real)
    requires Sound(m) && gamma > 0.0
    requires RedOf(s1) == 0 && GreenOf(s1) == 0 && BlueOf(s1) == 0
    requires RedOf(s2) == 0 && GreenOf(s2) == 0 && BlueOf(s2) == 0
    ensures Perceive(m, s1, gamma, luminance) == Perceive(m, s2, gamma, luminance)
  {
    PremultipliedBlack(m, 0, 0, 0, AlphaOf(s1), gamma, luminance);
    PremultipliedBlack(m, 0, 0, 0, AlphaOf(s2), gamma, luminance);
  }

  /** A grey pixel (equal colour channels) has no chroma. */
  lemma GreyPixelHasNoChroma(m: MathLib, grey: int, alpha: int, gamma: real, luminance: real)
    ensures PerceiveChannels(m, grey, grey, grey, alpha, gamma, luminance).a == 0.0
    ensures PerceiveChannels(m, grey, grey, grey, alpha, gamma, luminance).b == 0.0
  {
    var c := m.pow(grey as real / 255.0 * (alpha as real / 255.0), gamma);
    NeutralHasNoChroma(m, c);
  }

  /** The per-pixel conversion of a whole image. */
  function PerceiveAll(m: MathLib, samples: seq<int32>, gamma: real, luminance: real): (ps: seq<Perceived>)
    ensures |ps| == |samples|
  {
    seq(|samples|, i requires 0 <= i < |samples| => Perceive(m, samples[i], gamma, luminance))
  }

  function Luminances(ps: seq<Perceived>): (r: seq<real>)
    ensures |r| == |ps|
  {
    seq(|ps|, i requires 0 <= i < |ps| => ps[i].lum)
  }

  function AChroma(ps: seq<Perceived>): (r: seq<real>)
    ensures |r| == |ps|
  {
    seq(|ps|, i requires 0 <= i < |ps| => ps[i].a)
  }

  function BChroma(ps: seq<Perceived>): (r: seq<real>)
    ensures |r| == |ps|
  {
    seq(|ps|, i requires 0 <= i < |ps| => ps[i].b)
  }

  /**
   * The pixel loop of the ColourSpace constructor for one image: row by row,
   * every word is converted and its three channels stored at its index.
   */
  method ConvertPixels(image: RGBAImage, convert: int32 -> Perceived)
    returns (lum: array<real>, a: array<real>, b: array<real>)
    requires image.Valid()
    ensures fresh(lum) && fresh(a) && fresh(b)
    ensures lum.Length == a.Length == b.Length == image.width * image.height
    ensures forall k :: 0 <= k < lum.Length ==> lum[k] == convert(image.pixels[k]).lum
    ensures forall k :: 0 <= k < a.Length ==> a[k] == convert(image.pixels[k]).a
    ensures forall k :: 0 <= k < b.Length ==> b[k] == convert(image.pixels[k]).b
  {
    var w := image.width;
    var h := image.height;
    var dim := w * h;
    lum := new real[dim];
    a := new real[dim];
    b := new real[dim];
    var y := 0;
    while y < h
      invariant 0 <= y <= h && y * w <= dim
      invariant forall k :: 0 <= k < y * w ==> lum[k] == convert(image.pixels[k]).lum
      invariant forall k :: 0 <= k < y * w ==> a[k] == convert(image.pixels[k]).a
      invariant forall k :: 0 <= k < y * w ==> b[k] == convert(image.pixels[k]).b
    {
      var rowStart := y * w;
      assert rowStart + w <= dim by { RowEnd(y, w, h); }
      var x := 0;
      while x < w
        invariant 0 <= x <= w
        invariant forall k :: 0 <= k < rowStart + x ==> lum[k] == convert(image.pixels[k]).lum
        invariant forall k :: 0 <= k < rowStart + x ==> a[k] == convert(image.pixels[k]).a
        invariant forall k :: 0 <= k < rowStart + x ==> b[k] == convert(image.pixels[k]).b
      {
        var i := rowStart + x;
        var p := convert(image.Get(i));
        a[i] := p.a;
        b[i] := p.b;
        lum[i] := p.lum;
        x := x + 1;
      }
      assert rowStart + w == (y + 1) * w;
      y := y + 1;
    }
    assert y * w == dim;
  }

  /**
   * The six per-pixel channels of two equally sized images, filled once per
   * comparison and only read afterwards.
   */
  class ColourSpace {
    /** Scaled luminance of image A and of image B. */
    const aLum: array<real>
    const bLum: array<real>
    /** The a chroma of image A and of image B. */
    const aA: array<real>
    const bA: array<real>
    /** The b chroma of image A and of image B. */
    const aB: array<real>
    const bB: array<real>

    constructor (imageA: RGBAImage, imageB: RGBAImage, gamma: real, luminance: real, m: MathLib)
      requires imageA.Valid() && imageB.Valid()
      requires imageB.width == imageA.width && imageB.height == imageA.height
      ensures fresh(aLum) && fresh(bLum) && fresh(aA) && fresh(bA) && fresh(aB) && fresh(bB)
      ensures aLum.Length == bLum.Length == aA.Length == bA.Length == aB.Length == bB.Length
              == imageA.width * imageA.height
      ensures forall i :: 0 <= i < aLum.Length ==>
                var pa := Perceive(m, imageA.pixels[i], gamma, luminance);
                aLum[i] == pa.lum && aA[i] == pa.a && aB[i] == pa.b
      ensures forall i :: 0 <= i < bLum.Length ==>
                var pb := Perceive(m, imageB.pixels[i], gamma, luminance);
                bLum[i] == pb.lum && bA[i] == pb.a && bB[i] == pb.b
    {
      var convert := s => Perceive(m, s, gamma, luminance);
      var aLum', aA', aB' := ConvertPixels(imageA, convert);
      var bLum', bA', bB' := ConvertPixels(imageB, convert);
      aLum, bLum, aA, bA, aB, bB := aLum', bLum', aA', bA', aB', bB';
    }
  }
}
