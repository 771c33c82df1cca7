/**
 * Configuration, construction checks, random-gene sizing and the gene-shape
 * check of the CPPN image generator network.
 *
 * Gene layout: segment i describes neuron i (the last three are the red,
 * green and blue outputs). Offset 0 selects the activation function; for
 * every input j the neuron may read (the four fixed inputs, then every
 * earlier neuron) offset 1 + 2*j holds the enable value and 2 + 2*j the weight.
 */
module CppnConfig {
  import opened CppSemantics
  import opened NetworkCommon

  datatype Config = Config(width: int, height: int, minSize: int, maxSize: int, imagePath: string)

  /** The values the config struct's default constructor gives. */
  function DefaultConfig(): Config
  {
    Config(256, 256, 0, 10, "./qnn-image-generators-CPPN.png")
  }

  datatype ConfigError = MaxSizeNotPositive | MinSizeNotPositive | MinSizeAboveMaxSize

  /**
   * The constructor's fatal checks, in the order it makes them; the first
   * that fails aborts. Width and height are not checked.
   */
  function ValidateConfig(c: Config): (r: Result<Config, ConfigError>)
    ensures r.Success? <==> 0 < c.minSize <= c.maxSize
    ensures r.Success? ==> r.value == c
    ensures r == Failure(MaxSizeNotPositive) <==> c.maxSize <= 0
    ensures r == Failure(MinSizeNotPositive) <==> 0 < c.maxSize && c.minSize <= 0
  {
    if c.maxSize <= 0 then Failure(MaxSizeNotPositive)
    else if c.minSize <= 0 then Failure(MinSizeNotPositive)
    else if c.minSize > c.maxSize then Failure(MinSizeAboveMaxSize)
    else Success(c)
  }

  /** The default configuration is refused by the public constructor: its min_size is 0. */
  lemma DefaultConfigRejected()
    ensures DefaultConfig().width == 256 && DefaultConfig().height == 256
    ensures DefaultConfig().imagePath == "./qnn-image-generators-CPPN.png"
    ensures ValidateConfig(DefaultConfig()) == Failure(MinSizeNotPositive)
  {
  }

  /**
   * The sizing getRandomGene hands to the gene constructor, `rand` standing
   * for qrand(). max_size == min_size would take a remainder by zero.
   */
  function RandomGeneRequest(c: Config, rand: int): (req: GeneRequest)
    requires c.minSize < c.maxSize
    requires rand >= 0
    ensures req.segmentWidth == 15 + 2 * c.maxSize
    ensures c.minSize + 3 <= req.segments <= c.maxSize + 2
  {
    GeneRequest(c.minSize + Rem(rand, c.maxSize - c.minSize) + 3, 1 + 4 * 2 + c.maxSize * 2 + 3 * 2)
  }

  /** Every count in [min_size + 3, max_size + 2] is requested for some random value. */
  lemma RandomGeneCountsReachable(c: Config, count: int)
    requires c.minSize < c.maxSize
    requires c.minSize + 3 <= count <= c.maxSize + 2
    ensures RandomGeneRequest(c, count - c.minSize - 3).segments == count
  {
    var rand := count - c.minSize - 3;
    ModUnique(rand, c.maxSize - c.minSize, 0, rand);
  }

  /**
   * The constructor accepts every config with min_size == max_size, yet such
   * a config falls outside RandomGeneRequest's domain: getRandomGene would
   * take its remainder by max_size - min_size == 0.
   */
  lemma EqualSizesAccepted(c: Config)
    requires 0 < c.minSize == c.maxSize
    ensures ValidateConfig(c).Success? && !(c.minSize < c.maxSize)
  {
  }

  /**
   * One repair of getRandomGene's sizing: a hidden-neuron count in
   * [min_size, max_size], as the length bounds it copies say, plus the
   * three outputs. The remainder is by max_size - min_size + 1, so every
   * accepted configuration has a defined request. (The other repair keeps
   * the half-open range and has the constructor refuse min_size == max_size.)
   */
  function IntendedRandomGeneRequest(c: Config, rand: int): (req: GeneRequest)
    requires ValidateConfig(c).Success?
    requires rand >= 0
    ensures req.segmentWidth == 15 + 2 * c.maxSize
    ensures c.minSize + 3 <= req.segments <= c.maxSize + 3
  {
    GeneRequest(c.minSize + Rem(rand, c.maxSize - c.minSize + 1) + 3, 1 + 4 * 2 + c.maxSize * 2 + 3 * 2)
  }

  /**
   * The intended sizing reaches every count up to max_size + 3, and the
   * segment width fits the widest neuron of every count it requests.
   */
  lemma IntendedRandomGeneFits(c: Config, count: int)
    requires ValidateConfig(c).Success?
    requires c.minSize + 3 <= count <= c.maxSize + 3
    ensures IntendedRandomGeneRequest(c, count - c.minSize - 3).segments == count
    ensures forall g :: Fulfils(g, IntendedRandomGeneRequest(c, count - c.minSize - 3)) ==> IntendedShapeOk(g)
  {
    var rand := count - c.minSize - 3;
    ModUnique(rand, c.maxSize - c.minSize + 1, 0, rand);
  }

  /** The check of _initialise, as written: segment 0 must hold 15 + 2 * (segment count) values. */
  predicate ShapeOk(g: Gene)
    requires |g| > 0
  {
    |g[0]| >= 1 + 4 * 2 + |g| * 2 + 3 * 2
  }

  /** What the check means to guarantee: one enable/weight pair per input of the widest neuron. */
  predicate IntendedShapeOk(g: Gene)
    requires |g| > 0
  {
    |g[0]| >= 1 + 4 * 2 + |g| * 2
  }

  /** Neuron i reads offsets up to 2 * i + 8 of its segment. */
  predicate ReadsInBounds(g: Gene)
  {
    forall i :: 0 <= i < |g| ==> 2 * i + 9 <= |g[i]|
  }

  /** A gene shaped as getRandomGene requests it. */
  predicate Fulfils(g: Gene, req: GeneRequest)
  {
    |g| == req.segments && |g| > 0 && Uniform(g) && |g[0]| == req.segmentWidth
  }

  /**
   * As written, a random gene passes _initialise only when it has at most
   * max_size segments, so when max_size - min_size < 3 no random gene passes.
   */
  lemma RandomGeneRejectedAsWritten(c: Config, rand: int, g: Gene)
    requires ValidateConfig(c).Success? && c.minSize < c.maxSize && rand >= 0
    requires Fulfils(g, RandomGeneRequest(c, rand))
    ensures ShapeOk(g) <==> |g| <= c.maxSize
    ensures c.maxSize - c.minSize < 3 ==> !ShapeOk(g)
  {
  }

  /** A concrete case: sizes 1..10 and qrand() returning 8 give 12 segments of width 35. */
  lemma RandomGeneRejectedExample(g: Gene)
    requires Fulfils(g, RandomGeneRequest(Config(256, 256, 1, 10, "a.png"), 8))
    ensures |g| == 12 && |g[0]| == 35
    ensures !ShapeOk(g)
  {
    ModUnique(8, 9, 0, 8);
  }

  /** With the intended check every random gene is accepted. */
  lemma RandomGeneAcceptedAsIntended(c: Config, rand: int, g: Gene)
    requires ValidateConfig(c).Success? && c.minSize < c.maxSize && rand >= 0
    requires Fulfils(g, RandomGeneRequest(c, rand))
    ensures IntendedShapeOk(g)
  {
  }

  /**
   * Both checks keep every read of the evaluation inside its segment: the
   * intended check is the weaker one and already suffices.
   */
  lemma {:induction false} ShapeChecksKeepReadsInBounds(g: Gene)
    requires |g| > 0 && Uniform(g)
    ensures ShapeOk(g) ==> IntendedShapeOk(g)
    ensures IntendedShapeOk(g) ==> ReadsInBounds(g)
  {
    if IntendedShapeOk(g) {
      forall i | 0 <= i < |g|
        ensures 2 * i + 9 <= |g[i]|
      {
        assert |g[i]| == |g[0]|;
      }
    }
  }
}
