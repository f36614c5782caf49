/**
 * Packed-pixel access of RGBAImage.java.
 *
 * An image is a BufferedImage whose raster holds, row by row, one 32-bit word
 * per pixel as `getRGB` returns it (alpha in bits 24-31, then red, green,
 * blue in java.awt.Color's order). The channel accessors of RGBAImage read
 * that word with red and blue deliberately swapped.
 */
module Images {

  /** A Java `int`. */
  newtype int32 = x: int | -0x8000_0000 <= x < 0x8000_0000

  const TwoTo8: int := 0x100
  const TwoTo16: int := 0x1_0000
  const TwoTo24: int := 0x100_0000
  const TwoTo32: int := 0x1_0000_0000

  /** The 32 bits of a Java int read as an unsigned number. */
  function Unsigned(s: int32): (u: int)
    ensures 0 <= u < TwoTo32
    ensures u % TwoTo32 == (s as int) % TwoTo32
  {
    if s < 0 then s as int + TwoTo32 else s as int
  }

  /** The Java int whose 32 bits are `u`. */
  function Signed(u: int): (s: int32)
    requires 0 <= u < TwoTo32
    ensures Unsigned(s) == u
  {
    if u < 0x8000_0000 then u as int32 else (u - TwoTo32) as int32
  }

  /**
   * Java's `(s >> k) & 0xFF` for a shift k: the arithmetic shift is floor
   * division by 2^k and the mask the non-negative remainder modulo 256, which
   * are Dafny's `/` and `%` on int for a positive divisor.
   */
  function ShiftAndMask(s: int32, twoToK: int): int
    requires twoToK > 0
  {
    (s as int / twoToK) % TwoTo8
  }

  /** `getRed`: bits 0-7, which java.awt.Color would call blue. */
  function RedOf(s: int32): (v: int)
    ensures 0 <= v < 256 && v == Unsigned(s) % TwoTo8
  {
    ChannelOfUnsigned(s, 1);
    ShiftAndMask(s, 1)
  }

  /** `getGreen`: bits 8-15. */
  function GreenOf(s: int32): (v: int)
    ensures 0 <= v < 256 && v == (Unsigned(s) / TwoTo8) % TwoTo8
  {
    ChannelOfUnsigned(s, TwoTo8);
    ShiftAndMask(s, TwoTo8)
  }

  /** `getBlue`: bits 16-23, which java.awt.Color would call red. */
  function BlueOf(s: int32): (v: int)
    ensures 0 <= v < 256 && v == (Unsigned(s) / TwoTo16) % TwoTo8
  {
    ChannelOfUnsigned(s, TwoTo16);
    ShiftAndMask(s, TwoTo16)
  }

  /** `getAlpha`: bits 24-31. */
  function AlphaOf(s: int32): (v: int)
    ensures 0 <= v < 256 && v == Unsigned(s) / TwoTo24
  {
    ChannelOfUnsigned(s, TwoTo24);
    ShiftAndMask(s, TwoTo24)
  }

  /**
   * Shifting the signed word and masking gives the same byte as shifting the
   * unsigned word: the two differ by 2^32, a multiple of 256 * 2^k.
   */
  lemma ChannelOfUnsigned(s: int32, twoToK: int)
    requires twoToK == 1 || twoToK == TwoTo8 || twoToK == TwoTo16 || twoToK == TwoTo24
    ensures ShiftAndMask(s, twoToK) == (Unsigned(s) / twoToK) % TwoTo8
  {
    if s < 0 {
      var q := TwoTo32 / twoToK;
      assert q * twoToK == TwoTo32;
      assert q % TwoTo8 == 0;
      DivShift(s as int, twoToK, q);
      ModShift(s as int / twoToK, q / TwoTo8);
    }
  }

  lemma DivShift(a: int, d: int, q: int)
    requires d > 0
    ensures (a + q * d) / d == a / d + q
  {
    var r := a % d;
    assert a == (a / d) * d + r;
    assert a + q * d == (a / d + q) * d + r by {
      assert (a / d + q) * d == (a / d) * d + q * d;
    }
    DivUnique(a + q * d, d, a / d + q, r);
  }

  /** Euclidean division is determined by quotient and remainder. */
  lemma DivUnique(n: int, d: int, k: int, r: int)
    requires d > 0 && 0 <= r < d && n == k * d + r
    ensures n / d == k && n % d == r
  {
    var k', r' := n / d, n % d;
    assert n == k' * d + r';
    assert (k - k') * d == r' - r by {
      assert (k - k') * d == k * d - k' * d;
    }
    if k - k' >= 1 {
      assert false;
    } else if k - k' <= -1 {
      assert false;
    }
  }

  lemma ModShift(a: int, t: int)
    ensures (a + t * TwoTo8) % TwoTo8 == a % TwoTo8
  {
    assert a == (a / TwoTo8) * TwoTo8 + a % TwoTo8;
    assert a + t * TwoTo8 == (a / TwoTo8 + t) * TwoTo8 + a % TwoTo8;
  }

  /**
   * The four accessors partition the word: reassembled in the order the
   * accessors read them they give back the word's 32 bits.
   */
  lemma ChannelsPartitionSample(s: int32)
    ensures RedOf(s) + GreenOf(s) * TwoTo8 + BlueOf(s) * TwoTo16 + AlphaOf(s) * TwoTo24 == Unsigned(s)
  {
    var u := Unsigned(s);
    var u1 := u / TwoTo8;
    var u2 := u1 / TwoTo8;
    assert u == u1 * TwoTo8 + u % TwoTo8;
    assert u1 == u2 * TwoTo8 + u1 % TwoTo8;
    assert u2 == u / TwoTo16;
    assert u2 < TwoTo16;
    assert u2 == (u2 / TwoTo8) * TwoTo8 + u2 % TwoTo8;
    assert u2 / TwoTo8 == u / TwoTo24;
  }

  /**
   * `new Color(r, g, b, a).getRGB()`: alpha in bits 24-31, red 16-23, green
   * 8-15, blue 0-7, as a Java int.
   */
  function ColorRgb(r: int, g: int, b: int, a: int): int32
    requires 0 <= r < 256 && 0 <= g < 256 && 0 <= b < 256 && 0 <= a < 256
  {
    Signed(a * TwoTo24 + r * TwoTo16 + g * TwoTo8 + b)
  }

  /**
   * Reading back a word written by `set` shows the swap: the accessor named
   * red returns the blue written, and the one named blue the red.
   */
  lemma {:induction false} ColorRgbReadBack(r: int, g: int, b: int, a: int)
    requires 0 <= r < 256 && 0 <= g < 256 && 0 <= b < 256 && 0 <= a < 256
    ensures RedOf(ColorRgb(r, g, b, a)) == b
    ensures GreenOf(ColorRgb(r, g, b, a)) == g
    ensures BlueOf(ColorRgb(r, g, b, a)) == r
    ensures AlphaOf(ColorRgb(r, g, b, a)) == a
  {
    var u := a * TwoTo24 + r * TwoTo16 + g * TwoTo8 + b;
    var s := ColorRgb(r, g, b, a);
    assert Unsigned(s) == u;
    var u1 := a * TwoTo16 + r * TwoTo8 + g;
    var u2 := a * TwoTo8 + r;
    assert u == u1 * TwoTo8 + b;
    assert u % TwoTo8 == b && u / TwoTo8 == u1;
    assert u1 == u2 * TwoTo8 + g;
    assert u1 % TwoTo8 == g && u1 / TwoTo8 == u2;
    assert u / TwoTo16 == u2 by {
      assert u == u2 * TwoTo16 + (g * TwoTo8 + b);
    }
    assert u2 % TwoTo8 == r;
    assert u / TwoTo24 == a by {
      assert u == a * TwoTo24 + (r * TwoTo16 + g * TwoTo8 + b);
    }
  }

  /** The linear index of `get(i)`/`set` and the (x, y) it addresses. */
  lemma IndexCoordinates(i: int, width: int, height: int)
    requires 0 < width && 0 <= i < width * height
    ensures 0 <= i % width < width && 0 <= i / width < height
    ensures i % width + (i / width) * width == i
  {
    var y := i / width;
    assert i == y * width + i % width;
  }

  /** The row-major linear index of a pixel inside the image is inside the raster. */
  lemma IndexInRange(x: int, y: int, width: int, height: int)
    requires 0 <= x < width && 0 <= y < height
    ensures 0 <= y * width + x < width * height
  {
    RowEnd(y, width, height);
  }

  /** Row-major linear index of (x, y) and its coordinates read back. */
  lemma LinearIndex(x: int, y: int, width: int, height: int)
    requires 0 <= x < width && 0 <= y < height
    ensures 0 <= x + y * width < width * height
    ensures (x + y * width) % width == x && (x + y * width) / width == y
  {
    assert y * width <= (height - 1) * width;
    DivShift(x, width, y);
    assert x / width == 0;
    assert (x + y * width) / width == y;
  }

  /** Row y of a width-w image ends inside the raster. */
  lemma RowEnd(y: int, w: int, h: int)
    requires 0 <= y < h && 0 < w
    ensures y * w + w <= w * h
  {
    assert y * w + w == (y + 1) * w;
    assert (y + 1) * w <= h * w;
  }

  /** An image as a value: its size and its words in row-major order. */
  datatype Raster = Raster(width: int, height: int, samples: seq<int32>)
  {
    ghost predicate Valid()
    {
      0 < width && 0 < height && |samples| == width * height
    }
  }

  class RGBAImage {
    const width: int
    const height: int
    /** The words of the raster, row-major: the word of (x, y) at x + y * width. */
    const pixels: array<int32>
    const name: string

    ghost predicate Valid()
    {
      0 < width && 0 < height && pixels.Length == width * height
    }

    ghost function Contents(): (r: Raster)
      reads pixels
      ensures r.width == width && r.height == height && r.samples == pixels[..]
    {
      Raster(width, height, pixels[..])
    }

    /** `RGBAImage(int width, int height, String name)`: a fresh all-zero (transparent black) image. */
    constructor (width: int, height: int, name: string)
      requires 0 < width && 0 < height
      ensures Valid() && fresh(pixels)
      ensures this.width == width && this.height == height && this.name == name
      ensures forall i :: 0 <= i < pixels.Length ==> pixels[i] == 0
    {
      this.width := width;
      this.height := height;
      this.name := name;
      pixels := new int32[width * height](_ => 0);
    }

    /** `get(i)`: the word at (i % width, i / width), which is pixel i in row-major order. */
    function Get(i: int): (s: int32)
      reads pixels
      requires Valid() && 0 <= i < width * height
      ensures s == pixels[i]
    {
      var x := i % width;
      var y := i / width;
      IndexCoordinates(i, width, height);
      pixels[x + y * width]
    }

    function GetRed(i: int): (v: int)
      reads pixels
      requires Valid() && 0 <= i < width * height
      ensures 0 <= v < 256 && v == Unsigned(pixels[i]) % TwoTo8
      ensures v == RedOf(pixels[i])
    {
      RedOf(Get(i))
    }

    function GetGreen(i: int): (v: int)
      reads pixels
      requires Valid() && 0 <= i < width * height
      ensures 0 <= v < 256 && v == (Unsigned(pixels[i]) / TwoTo8) % TwoTo8
      ensures v == GreenOf(pixels[i])
    {
      GreenOf(Get(i))
    }

    function GetBlue(i: int): (v: int)
      reads pixels
      requires Valid() && 0 <= i < width * height
      ensures 0 <= v < 256 && v == (Unsigned(pixels[i]) / TwoTo16) % TwoTo8
      ensures v == BlueOf(pixels[i])
    {
      BlueOf(Get(i))
    }

    function GetAlpha(i: int): (v: int)
      reads pixels
      requires Valid() && 0 <= i < width * height
      ensures 0 <= v < 256 && v == Unsigned(pixels[i]) / TwoTo24
      ensures v == AlphaOf(pixels[i])
    {
      AlphaOf(Get(i))
    }

    /**
     * `set(r, g, b, a, i)`: writes the word of `new Color(r, g, b, a)` at
     * (i % width, i / width) and nothing else. The Color constructor rejects
     * components outside 0..255 and setRGB coordinates outside the image.
     */
    method Set(r: int, g: int, b: int, a: int, i: int)
      requires Valid() && 0 <= i < width * height
      requires 0 <= r < 256 && 0 <= g < 256 && 0 <= b < 256 && 0 <= a < 256
      modifies pixels
      ensures pixels[..] == old(pixels[..])[i := ColorRgb(r, g, b, a)]
    {
      var c := ColorRgb(r, g, b, a);
      var x := i % width;
      var y := i / width;
      IndexCoordinates(i, width, height);
      pixels[x + y * width] := c;
    }
  }
}
