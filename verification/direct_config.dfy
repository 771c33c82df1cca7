/**
 * Configuration, construction checks, the gene-shape check and the
 * pixel-to-segment mapping of the direct-encoding image generator network.
 *
 * Gene layout: one segment of three values per pixel, red, green and blue,
 * the pixels taken row by row.
 */
module DirectConfig {
  import opened CppSemantics
  import opened NetworkCommon

  datatype Config = Config(width: int, height: int, imagePath: string)

  /** The values the config struct's default constructor gives. */
  function DefaultConfig(): Config
  {
    Config(256, 256, "./qnn-image-generators-direct-encoding.png")
  }

  /** The height check reports "Width must be greater than 0" too; the two are told apart here. */
  datatype ConfigError = WidthNotPositive | HeightNotPositive

  /** The constructor's fatal checks, in the order it makes them. */
  function ValidateConfig(c: Config): (r: Result<Config, ConfigError>)
    ensures r.Success? <==> c.width > 0 && c.height > 0
    ensures r.Success? ==> r.value == c
    ensures r == Failure(WidthNotPositive) <==> c.width <= 0
    ensures r == Failure(HeightNotPositive) <==> c.width > 0 && c.height <= 0
  {
    if c.width <= 0 then Failure(WidthNotPositive)
    else if c.height <= 0 then Failure(HeightNotPositive)
    else Success(c)
  }

  /** The pixel count of a configuration fits the 32-bit integers the code indexes with. */
  predicate FitsInt32(c: Config)
  {
    c.width * c.height <= INT32_MAX
  }

  /** The default configuration passes every constructor check. */
  lemma DefaultConfigAccepted()
    ensures DefaultConfig().width == 256 && DefaultConfig().height == 256
    ensures DefaultConfig().imagePath == "./qnn-image-generators-direct-encoding.png"
    ensures ValidateConfig(DefaultConfig()).Success? && FitsInt32(DefaultConfig())
  {
  }

  /**
   * Why _initialise aborts. An empty gene passes the count check only when
   * the expected count is 0, and then the width check reads segment 0,
   * which does not exist: undefined behaviour in a release build (only a
   * debug build's assertion aborts), modelled here as a refusal.
   */
  datatype InitError = SegmentCountMismatch | MissingFirstSegment | SegmentWidthNotThree

  /** The checks of _initialise, in order, against the expected segment count `size`. */
  function InitialiseCheck(size: int, g: Gene): (r: Outcome<InitError>)
    ensures r == Pass <==> |g| == size && |g| > 0 && |g[0]| == 3
    ensures r == Fail(SegmentCountMismatch) <==> |g| != size
    ensures r == Fail(MissingFirstSegment) <==> |g| == size == 0
  {
    if |g| != size then Fail(SegmentCountMismatch)
    else if |g| == 0 then Fail(MissingFirstSegment)
    else if |g[0]| != 3 then Fail(SegmentWidthNotThree)
    else Pass
  }

  /** With an expected count of 0 no gene at all passes _initialise. */
  lemma NoGenePassesSizeZero(g: Gene)
    ensures InitialiseCheck(0, g).Fail?
  {
  }

  /**
   * With the count the size documentation promises, width * height, every
   * gene of that many three-value segments passes _initialise.
   */
  lemma DocumentedSizeAcceptsRequestedGene(c: Config, g: Gene)
    requires ValidateConfig(c).Success?
    requires |g| == c.width * c.height && |g| > 0 && Uniform(g) && |g[0]| == 3
    ensures InitialiseCheck(c.width * c.height, g) == Pass
  {
  }

  /** A gene that passes _initialise against width * height holds three values for every pixel. */
  lemma PassingGeneCovers(c: Config, g: Gene)
    requires Uniform(g) && InitialiseCheck(c.width * c.height, g) == Pass
    ensures Covers(c, g)
  {
    forall i | 0 <= i < |g|
      ensures |g[i]| >= 3
    {
      assert |g[i]| == |g[0]|;
    }
  }

  /** The segment holding pixel (x, y): width * y + x. */
  function SegmentIndex(c: Config, x: int, y: int): (i: int)
    requires 0 <= x < c.width && 0 <= y < c.height
    ensures 0 <= i < c.width * c.height
  {
    var i := c.width * y + x;
    MulMonotone(c.width, y + 1, c.height);
    i
  }

  /** Segment index i names column i % width of row i / width. */
  lemma SegmentIndexDecomposes(c: Config, x: int, y: int)
    requires 0 <= x < c.width && 0 <= y < c.height
    ensures SegmentIndex(c, x, y) % c.width == x && SegmentIndex(c, x, y) / c.width == y
  {
    ModUnique(SegmentIndex(c, x, y), c.width, y, x);
    DivUnique(SegmentIndex(c, x, y), c.width, y, x);
  }

  lemma DivUnique(a: int, m: int, q: int, r: int)
    requires m > 0 && 0 <= r < m && a == q * m + r
    ensures a / m == q
  {
    ModUnique(a, m, q, r);
    assert (q - a / m) * m == a % m - r;
  }

  /** Distinct pixels of the grid are stored in distinct segments. */
  lemma SegmentIndexInjective(c: Config, x1: int, y1: int, x2: int, y2: int)
    requires 0 <= x1 < c.width && 0 <= y1 < c.height
    requires 0 <= x2 < c.width && 0 <= y2 < c.height
    ensures SegmentIndex(c, x1, y1) == SegmentIndex(c, x2, y2) <==> x1 == x2 && y1 == y2
  {
    SegmentIndexDecomposes(c, x1, y1);
    SegmentIndexDecomposes(c, x2, y2);
  }

  /** Every segment of a width * height gene belongs to exactly one pixel. */
  lemma SegmentIndexOnto(c: Config, i: int)
    requires c.width > 0 && 0 <= i < c.width * c.height
    ensures 0 <= i % c.width < c.width && 0 <= i / c.width < c.height
    ensures SegmentIndex(c, i % c.width, i / c.width) == i
  {
    var q := i / c.width;
    assert c.width * q <= i;
    if q >= c.height {
      MulMonotone(c.width, c.height, q);
      assert false;
    }
  }

  lemma MulMonotone(w: nat, a: int, b: int)
    requires a <= b
    ensures w * a <= w * b
  {
  }

  /**
   * The three values qRgb receives for a pixel stored in segment `seg`,
   * `decode` standing for floatFromGeneInput(value, 255).
   */
  function SegmentPixel(decode: int -> real, seg: seq<int>): (px: Rgb)
    requires |seg| >= 3
    ensures px.r as real <= decode(seg[0]) < px.r as real + 1.0
    ensures px.g as real <= decode(seg[1]) < px.g as real + 1.0
    ensures px.b as real <= decode(seg[2]) < px.b as real + 1.0
  {
    Rgb(decode(seg[0]).Floor, decode(seg[1]).Floor, decode(seg[2]).Floor)
  }

  /** A pixel reads components 0, 1 and 2 of its segment and nothing else. */
  lemma SegmentPixelReadsFirstThree(decode: int -> real, s1: seq<int>, s2: seq<int>)
    requires |s1| >= 3 && |s2| >= 3 && s1[..3] == s2[..3]
    ensures SegmentPixel(decode, s1) == SegmentPixel(decode, s2)
  {
    assert s1[0] == s1[..3][0] && s1[1] == s1[..3][1] && s1[2] == s1[..3][2];
  }

  /** A gene that holds three values for each pixel of the grid. */
  predicate Covers(c: Config, g: Gene)
  {
    |g| == c.width * c.height && forall i :: 0 <= i < |g| ==> |g[i]| >= 3
  }

  /** The pixel written at (x, y). */
  function DirectPixel(decode: int -> real, c: Config, g: Gene, x: int, y: int): Rgb
    requires 0 <= x < c.width && 0 <= y < c.height && Covers(c, g)
  {
    SegmentPixel(decode, g[SegmentIndex(c, x, y)])
  }

  /**
   * Pixel (x, y) depends on its own segment only: two genes that agree there
   * give it the same colour, whatever the other segments hold.
   */
  lemma PixelDependsOnOwnSegment(decode: int -> real, c: Config, g1: Gene, g2: Gene, x: int, y: int)
    requires 0 <= x < c.width && 0 <= y < c.height && Covers(c, g1) && Covers(c, g2)
    requires g1[SegmentIndex(c, x, y)][..3] == g2[SegmentIndex(c, x, y)][..3]
    ensures DirectPixel(decode, c, g1, x, y) == DirectPixel(decode, c, g2, x, y)
  {
    SegmentPixelReadsFirstThree(decode, g1[SegmentIndex(c, x, y)], g2[SegmentIndex(c, x, y)]);
  }

  /** The pixels of row y, left to right. */
  function Row(w: nat, y: int): (r: seq<(int, int)>)
    ensures |r| == w && forall x :: 0 <= x < w ==> r[x] == (x, y)
  {
    seq(w, x => (x, y))
  }

  /** The order in which the pixel loops visit rows 0..h-1: row by row. */
  function RowMajor(w: nat, h: nat): seq<(int, int)>
  {
    if h == 0 then [] else RowMajor(w, h - 1) + Row(w, h - 1)
  }

  /** The i-th visit is the pixel stored in segment i. */
  lemma {:induction false} RowMajorAt(w: nat, h: nat, i: int)
    requires w > 0 && 0 <= i < w * h
    ensures |RowMajor(w, h)| == w * h
    ensures RowMajor(w, h)[i] == (i % w, i / w)
  {
    if h == 0 {
      assert false;
    }
    var prev := RowMajor(w, h - 1);
    RowMajorLength(w, h - 1);
    assert w * h == w * (h - 1) + w;
    assert RowMajor(w, h) == prev + Row(w, h - 1);
    if i < w * (h - 1) {
      RowMajorAt(w, h - 1, i);
      assert RowMajor(w, h)[i] == prev[i];
    } else {
      var x := i - w * (h - 1);
      assert RowMajor(w, h)[i] == Row(w, h - 1)[x];
      ModUnique(i, w, h - 1, x);
      DivUnique(i, w, h - 1, x);
    }
  }

  lemma {:induction false} RowMajorLength(w: nat, h: nat)
    ensures |RowMajor(w, h)| == w * h
  {
    if h > 0 {
      RowMajorLength(w, h - 1);
    }
  }

  /**
   * The loops visit every pixel of the grid exactly once: each visit is a
   * grid pixel, no pixel is visited twice, and every grid pixel is visited.
   */
  lemma RowMajorVisitsEachPixelOnce(c: Config)
    requires ValidateConfig(c).Success?
    ensures var order := RowMajor(c.width, c.height);
      && |order| == c.width * c.height
      && (forall i :: 0 <= i < |order| ==> 0 <= order[i].0 < c.width && 0 <= order[i].1 < c.height)
      && (forall i, j :: 0 <= i < j < |order| ==> order[i] != order[j])
      && (forall x, y :: 0 <= x < c.width && 0 <= y < c.height ==> order[SegmentIndex(c, x, y)] == (x, y))
  {
    var order := RowMajor(c.width, c.height);
    RowMajorLength(c.width, c.height);
    forall i | 0 <= i < |order|
      ensures order[i] == (i % c.width, i / c.width)
      ensures 0 <= order[i].0 < c.width && 0 <= order[i].1 < c.height
    {
      RowMajorAt(c.width, c.height, i);
      SegmentIndexOnto(c, i);
    }
    forall i, j | 0 <= i < j < |order|
      ensures order[i] != order[j]
    {
      SegmentIndexOnto(c, i);
      SegmentIndexOnto(c, j);
    }
    forall x, y | 0 <= x < c.width && 0 <= y < c.height
      ensures order[SegmentIndex(c, x, y)] == (x, y)
    {
      RowMajorAt(c.width, c.height, SegmentIndex(c, x, y));
      SegmentIndexDecomposes(c, x, y);
    }
  }
}
