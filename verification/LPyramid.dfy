/**
 * The blur pyramid of LPyramid.java.
 *
 * Level 0 is the luminance image itself; every further level is the previous
 * one convolved with a separable 5x5 kernel, with the image mirrored at its
 * borders. The Java levels are float arrays; here they are arrays of reals.
 */
module Pyramid {
  import opened Images

  const MaxPyrLevels: int := 8

  /** The 1-D kernel {0.05, 0.25, 0.4, 0.25, 0.05}; tap k weighs offset k - 2. */
  function Kernel(k: int): (r: real)
    requires 0 <= k < 5
    ensures r > 0.0
  {
    if k == 0 || k == 4 then 0.05 else if k == 1 || k == 3 then 0.25 else 0.4
  }

  // ----- Border handling -----

  /**
   * The coordinate `convolve` reads for coordinate c shifted by k, as the code
   * computes it: the absolute value, then a reflection at the far border.
   */
  function Reflect(c: int, k: int, dim: int): int
  {
    var n := if c + k >= -(c + k) then c + k else -(c + k);
    if n >= dim then 2 * dim - n - 1 else n
  }

  /**
   * The linear index `convolve` reads for tap (i, j) of pixel (x, y) as the
   * code computes it.
   */
  function TapIndexAsWritten(w: int, h: int, x: int, y: int, i: int, j: int): int
  {
    Reflect(y, j, h) * w + Reflect(x, i, w)
  }

  /**
   * A dimension of 1 is reflected to -1 for a shift of 2: the index read for
   * pixel (0, 0) of a 1-wide, 2-tall image (or a 2-wide, 1-tall one) lies
   * before the start of the array, although that image has more than one
   * pixel and is convolved.
   */
  lemma TapIndexAsWrittenLeavesImage()
    ensures Reflect(0, 2, 1) == -1 && Reflect(0, -2, 1) == -1
    ensures 1 * 2 > 1 && TapIndexAsWritten(1, 2, 0, 0, 2, 0) == -1
    ensures 2 * 1 > 1 && TapIndexAsWritten(2, 1, 0, 0, 0, 2) == -2
  {
  }

  /**
   * The mirrored coordinate, clamped so that a dimension of 1 reads its only
   * row or column. Inside the image the coordinate itself is read, and for a
   * dimension of at least 2 this is exactly the code's reflection.
   */
  function MirrorIndex(c: int, k: int, dim: int): (r: int)
    requires 0 <= c < dim && -2 <= k <= 2
    ensures 0 <= r < dim
    ensures 0 <= c + k < dim ==> r == c + k
    ensures dim >= 2 ==> r == Reflect(c, k, dim)
  {
    var n := Reflect(c, k, dim);
    if n < 0 then 0 else n
  }

  // ----- The convolution as a specification -----


  /** The weight of the neighbour at offset (i, j): the product of the two 1-D taps. */
  function TapWeight(i: int, j: int): (r: real)
    requires -2 <= i <= 2 && -2 <= j <= 2
    ensures r > 0.0
  {
    Kernel(i + 2) * Kernel(j + 2)
  }

  /** Tap (i, j) of pixel (x, y): kernel weights times the mirrored neighbour. */
  function Tap(src: seq<real>, w: int, h: int, x: int, y: int, i: int, j: int): real
    requires |src| == w * h && 0 <= x < w && 0 <= y < h
    requires -2 <= i <= 2 && -2 <= j <= 2
  {
    var nx := MirrorIndex(x, i, w);
    var ny := MirrorIndex(y, j, h);
    IndexInRange(nx, ny, w, h);
    TapWeight(i, j) * src[ny * w + nx]
  }

  /** Tap (i, j) read off: the two kernel taps times the neighbour at the mirrored coordinates. */
  lemma TapAt(src: seq<real>, w: int, h: int, x: int, y: int, i: int, j: int)
    requires |src| == w * h && 0 <= x < w && 0 <= y < h
    requires -2 <= i <= 2 && -2 <= j <= 2
    ensures 0 <= MirrorIndex(y, j, h) * w + MirrorIndex(x, i, w) < |src|
    ensures Tap(src, w, h, x, y, i, j)
            == Kernel(i + 2) * Kernel(j + 2) * src[MirrorIndex(y, j, h) * w + MirrorIndex(x, i, w)]
  {
    IndexInRange(MirrorIndex(x, i, w), MirrorIndex(y, j, h), w, h);
  }

  /** The first n taps of column i (j = -2, ..., n - 3), in the code's order. */
  function ColumnSum(src: seq<real>, w: int, h: int, x: int, y: int, i: int, n: nat): real
    requires |src| == w * h && 0 <= x < w && 0 <= y < h
    requires -2 <= i <= 2 && n <= 5
  {
    if n == 0 then 0.0 else ColumnSum(src, w, h, x, y, i, n - 1) + Tap(src, w, h, x, y, i, n - 3)
  }

  /** The first m columns (i = -2, ..., m - 3) of the 5x5 sum of pixel (x, y). */
  function CellSum(src: seq<real>, w: int, h: int, x: int, y: int, m: nat): real
    requires |src| == w * h && 0 <= x < w && 0 <= y < h
    requires m <= 5
  {
    if m == 0 then 0.0 else CellSum(src, w, h, x, y, m - 1) + ColumnSum(src, w, h, x, y, m - 3, 5)
  }

  /** One blur step: every pixel replaced by its full 5x5 weighted sum. */
  function Blur(src: seq<real>, w: int, h: int): (r: seq<real>)
    requires 0 < w && 0 < h && |src| == w * h
    ensures |r| == w * h
  {
    seq(w * h, k requires 0 <= k < w * h =>
      IndexCoordinates(k, w, h);
      CellSum(src, w, h, k % w, k / w, 5))
  }

  /** An image of more than one pixel has both sides positive. */
  lemma PositiveSides(w: int, h: int)
    requires 0 <= w && 0 <= h && w * h > 1
    ensures 0 < w && 0 < h
  {
  }

  /** The blurred value of pixel (x, y) sits at its row-major index. */
  lemma BlurAt(src: seq<real>, w: int, h: int, x: int, y: int)
    requires |src| == w * h && 0 <= x < w && 0 <= y < h
    ensures 0 <= x + y * w < w * h
    ensures Blur(src, w, h)[x + y * w] == CellSum(src, w, h, x, y, 5)
  {
    LinearIndex(x, y, w, h);
  }

  /**
   * Level k of the pyramid of an image: the image blurred k times, or the
   * image itself at every level when it has at most one pixel.
   */
  function Level(image: seq<real>, w: int, h: int, k: nat): (r: seq<real>)
    requires 0 <= w && 0 <= h && |image| == w * h
    ensures |r| == w * h
  {
    if k == 0 || w * h <= 1 then image
    else
      PositiveSides(w, h);
      Blur(Level(image, w, h, k - 1), w, h)
  }

  // ----- Properties of the blur -----

  /** Every tap weighs a larger neighbour at least as much. */
  lemma TapMonotone(s1: seq<real>, s2: seq<real>, w: int, h: int, x: int, y: int, i: int, j: int)
    requires |s1| == w * h && |s2| == w * h && 0 <= x < w && 0 <= y < h
    requires -2 <= i <= 2 && -2 <= j <= 2
    requires forall k :: 0 <= k < w * h ==> s1[k] <= s2[k]
    ensures Tap(s1, w, h, x, y, i, j) <= Tap(s2, w, h, x, y, i, j)
  {
    var nx := MirrorIndex(x, i, w);
    var ny := MirrorIndex(y, j, h);
    IndexInRange(nx, ny, w, h);
    ScaleMonotone(TapWeight(i, j), s1[ny * w + nx], s2[ny * w + nx]);
  }

  lemma ScaleMonotone(c: real, v1: real, v2: real)
    requires c > 0.0 && v1 <= v2
    ensures c * v1 <= c * v2
  {
  }

  lemma {:induction false} ColumnSumMonotone(s1: seq<real>, s2: seq<real>, w: int, h: int, x: int, y: int,
                                              i: int, n: nat)
    requires |s1| == w * h && |s2| == w * h && 0 <= x < w && 0 <= y < h
    requires -2 <= i <= 2 && n <= 5
    requires forall k :: 0 <= k < w * h ==> s1[k] <= s2[k]
    ensures ColumnSum(s1, w, h, x, y, i, n) <= ColumnSum(s2, w, h, x, y, i, n)
  {
    if n > 0 {
      ColumnSumMonotone(s1, s2, w, h, x, y, i, n - 1);
      TapMonotone(s1, s2, w, h, x, y, i, n - 3);
    }
  }

  lemma {:induction false} CellSumMonotone(s1: seq<real>, s2: seq<real>, w: int, h: int, x: int, y: int, m: nat)
    requires |s1| == w * h && |s2| == w * h && 0 <= x < w && 0 <= y < h
    requires m <= 5
    requires forall k :: 0 <= k < w * h ==> s1[k] <= s2[k]
    ensures CellSum(s1, w, h, x, y, m) <= CellSum(s2, w, h, x, y, m)
  {
    if m > 0 {
      CellSumMonotone(s1, s2, w, h, x, y, m - 1);
      ColumnSumMonotone(s1, s2, w, h, x, y, m - 3, 5);
    }
  }

  /** The blur is monotone: a pointwise larger image blurs to a pointwise larger one. */
  lemma BlurMonotone(s1: seq<real>, s2: seq<real>, w: int, h: int)
    requires 0 < w && 0 < h && |s1| == w * h && |s2| == w * h
    requires forall k :: 0 <= k < w * h ==> s1[k] <= s2[k]
    ensures forall k :: 0 <= k < w * h ==> Blur(s1, w, h)[k] <= Blur(s2, w, h)[k]
  {
    forall k | 0 <= k < w * h
      ensures Blur(s1, w, h)[k] <= Blur(s2, w, h)[k]
    {
      IndexCoordinates(k, w, h);
      CellSumMonotone(s1, s2, w, h, k % w, k / w, 5);
    }
  }

  /** The sum of the first n weights of column i, in the order ColumnSum adds the taps. */
  function ColumnWeight(i: int, n: nat): real
    requires -2 <= i <= 2 && n <= 5
  {
    if n == 0 then 0.0 else ColumnWeight(i, n - 1) + TapWeight(i, n - 3)
  }

  /** The sum of the weights of the first m columns, in the order CellSum adds the columns. */
  function CellWeight(m: nat): real
    requires m <= 5
  {
    if m == 0 then 0.0 else CellWeight(m - 1) + ColumnWeight(m - 3, 5)
  }

  /**
   * The 25 outer-product weights of the kernel sum to one, so the blur is a
   * weighted average of the neighbourhood.
   */
  lemma KernelWeightsSumToOne()
    ensures CellWeight(5) == 1.0
  {
    assert ColumnWeight(-2, 5) == 0.05;
    assert ColumnWeight(-1, 5) == 0.25;
    assert ColumnWeight(0, 5) == 0.4;
    assert ColumnWeight(1, 5) == 0.25;
    assert ColumnWeight(2, 5) == 0.05;
  }

  /** Every level of the pyramid is monotone in the image. */
  lemma {:induction false} LevelMonotone(s1: seq<real>, s2: seq<real>, w: int, h: int, k: nat)
    requires 0 <= w && 0 <= h && |s1| == w * h && |s2| == w * h
    requires forall i :: 0 <= i < w * h ==> s1[i] <= s2[i]
    ensures forall i :: 0 <= i < w * h ==> Level(s1, w, h, k)[i] <= Level(s2, w, h, k)[i]
  {
    if k > 0 && w * h > 1 {
      LevelMonotone(s1, s2, w, h, k - 1);
      PositiveSides(w, h);
      BlurMonotone(Level(s1, w, h, k - 1), Level(s2, w, h, k - 1), w, h);
    }
  }

  /** Past level 0, an image of more than one pixel is blurred once per level. */
  lemma LevelStep(image: seq<real>, w: int, h: int, k: nat)
    requires 0 <= w && 0 <= h && |image| == w * h && w * h > 1 && k > 0
    ensures 0 < w && 0 < h
    ensures Level(image, w, h, k) == Blur(Level(image, w, h, k - 1), w, h)
  {
    PositiveSides(w, h);
  }

  // ----- The pyramid object -----

  class LPyramid {
    const width: int
    const height: int
    /** Successively blurred versions of the original image. */
    var levels: seq<array<real>>

    ghost predicate Valid()
      reads this, levels
    {
      0 <= width && 0 <= height &&
      |levels| == MaxPyrLevels &&
      (forall k :: 0 <= k < MaxPyrLevels ==> levels[k].Length == width * height) &&
      forall k {:trigger Level(levels[0][..], width, height, k)} :: 0 <= k < MaxPyrLevels ==>
        levels[k][..] == Level(levels[0][..], width, height, k)
    }

    /**
     * `LPyramid(image, width, height)`: level 0 is the image array itself;
     * levels 1 to 7 are fresh arrays, each the blur of the one before, unless
     * the image has at most one pixel, in which case every level is the image.
     */
    constructor (image: array<real>, width: int, height: int)
      requires 0 <= width && 0 <= height && image.Length == width * height
      ensures Valid()
      ensures this.width == width && this.height == height
      ensures levels[0] == image && image[..] == old(image[..])
      ensures forall k :: 0 < k < MaxPyrLevels ==>
                if width * height <= 1 then levels[k] == image else fresh(levels[k])
    {
      this.width := width;
      this.height := height;
      new;
      levels := BuildLevels(image);
    }

    /**
     * The loop of the constructor: level 0 is the image, and each further
     * level is the image again when it has at most one pixel, or else the
     * blur of the level before. The Java list is filled slot by slot; here the
     * levels are collected in order and stored once complete.
     */
    method BuildLevels(image: array<real>) returns (built: seq<array<real>>)
      requires 0 <= width && 0 <= height && image.Length == width * height
      ensures |built| == MaxPyrLevels && built[0] == image
      ensures forall k :: 0 <= k < MaxPyrLevels ==> built[k].Length == width * height
      ensures forall k :: 0 <= k < MaxPyrLevels ==> built[k][..] == Level(image[..], width, height, k)
      ensures forall k :: 0 < k < MaxPyrLevels ==>
                if width * height <= 1 then built[k] == image else fresh(built[k])
    {
      ghost var base := image[..];
      built := [];
      var i := 0;
      while i < MaxPyrLevels
        invariant 0 <= i <= MaxPyrLevels && |built| == i
        invariant image[..] == base
        invariant i > 0 ==> built[0] == image
        invariant forall k :: 0 <= k < i ==> built[k].Length == width * height
        invariant forall k :: 0 <= k < i ==> built[k][..] == Level(base, width, height, k)
        invariant forall k :: 0 < k < i ==>
                    if width * height <= 1 then built[k] == image else fresh(built[k])
      {
        if i == 0 || width * height <= 1 {
          built := built + [image];
        } else {
          var next := NextLevel(built[i - 1]);
          LevelStep(base, width, height, i);
          built := built + [next];
        }
        i := i + 1;
      }
    }

    /**
     * The step of the constructor for a level after the first: a fresh array
     * of the image's size, filled by `convolve` from the level before.
     */
    method NextLevel(previous: array<real>) returns (next: array<real>)
      requires 0 <= width && 0 <= height && width * height > 1
      requires previous.Length == width * height
      ensures fresh(next) && next[..] == Blur(previous[..], width, height)
    {
      next := new real[width * height];
      Convolve(next, previous);
    }

    /** `getValue(x, y, level)`: the value at (x, y) of level `level`. */
    function GetValue(x: int, y: int, level: int): (r: real)
      reads this, levels
      requires Valid() && 0 <= level < MaxPyrLevels
      requires 0 <= x + y * width < width * height
      ensures r == levels[level][x + y * width]
    {
      var index := x + y * width;
      levels[level][index]
    }

    /** The value `getValue` reads is that of the original image blurred `level` times. */
    lemma GetValueIsBlurred(x: int, y: int, level: int)
      requires Valid() && 0 <= level < MaxPyrLevels
      requires 0 <= x + y * width < width * height
      ensures GetValue(x, y, level) == Level(levels[0][..], width, height, level)[x + y * width]
    {
      assert levels[level][..] == Level(levels[0][..], width, height, level);
    }

    /** `convolve(a, b)`: stores in a the blur of b. */
    method Convolve(a: array<real>, b: array<real>)
      requires a != b && a.Length == b.Length == width * height && width * height > 1
      requires 0 <= width && 0 <= height
      modifies a
      ensures a[..] == Blur(b[..], width, height)
    {
      PositiveSides(width, height);
      ghost var blurred := Blur(b[..], width, height);
      var y := 0;
      while y < height
        invariant 0 <= y <= height && y * width <= width * height
        invariant forall k :: 0 <= k < y * width ==> a[k] == blurred[k]
      {
        var rowStart := y * width;
        assert rowStart + width <= width * height by { RowEnd(y, width, height); }
        var x := 0;
        while x < width
          invariant 0 <= x <= width
          invariant forall k :: 0 <= k < rowStart + x ==> a[k] == blurred[k]
        {
          var index := rowStart + x;
          var result := BlurredValue(b, x, y);
          BlurAt(b[..], width, height, x, y);
          assert index == x + y * width;
          a[index] := result;
          x := x + 1;
        }
        assert rowStart + width == (y + 1) * width;
        y := y + 1;
      }
      assert y * width == width * height;
      assert a[..] == blurred;
    }

    /** The body of `convolve` for pixel (x, y): the 5x5 weighted sum, column by column. */
    method BlurredValue(b: array<real>, x: int, y: int) returns (result: real)
      requires b.Length == width * height && 0 <= x < width && 0 <= y < height
      ensures result == CellSum(b[..], width, height, x, y, 5)
    {
      result := 0.0;
      var i := -2;
      while i <= 2
        invariant -2 <= i <= 3
        invariant result == CellSum(b[..], width, height, x, y, i + 2)
      {
        result := AddColumn(b, x, y, i, result);
        i := i + 1;
      }
    }

    /** The inner loop of `convolve`: adds the five taps of column i to `sum`, in order. */
    method AddColumn(b: array<real>, x: int, y: int, i: int, sum: real) returns (result: real)
      requires b.Length == width * height && 0 <= x < width && 0 <= y < height && -2 <= i <= 2
      ensures result == sum + ColumnSum(b[..], width, height, x, y, i, 5)
    {
      ghost var src := b[..];
      result := sum;
      var j := -2;
      while j <= 2
        invariant -2 <= j <= 3
        invariant result == sum + ColumnSum(src, width, height, x, y, i, j + 2)
      {
        var nx := MirroredCoordinate(x, i, width);
        var ny := MirroredCoordinate(y, j, height);
        IndexInRange(nx, ny, width, height);
        TapAt(src, width, height, x, y, i, j);
        result := result + Kernel(i + 2) * Kernel(j + 2) * b[ny * width + nx];
        j := j + 1;
      }
    }

    /**
     * The coordinate read for c shifted by k: `Math.max(n, -n)`, then the
     * reflection at the far border, then (see TapIndexAsWrittenLeavesImage)
     * row or column 0 when the reflection leaves a dimension of 1.
     */
    static method MirroredCoordinate(c: int, k: int, dim: int) returns (n: int)
      requires 0 <= c < dim && -2 <= k <= 2
      ensures n == MirrorIndex(c, k, dim)
      ensures 0 <= n < dim && (dim >= 2 ==> n == Reflect(c, k, dim))
    {
      n := c + k;
      n := if n >= -n then n else -n;
      if n >= dim {
        n := 2 * dim - n - 1;
      }
      if n < 0 {
        n := 0;
      }
    }
  }
}
