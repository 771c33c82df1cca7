/**
 * The direct-encoding image generator network as an object: its
 * configuration, the precalculated `size`, the gene it was initialised with,
 * and the operations that read them.
 */
module DirectGenerator {
  import opened CppSemantics
  import opened NetworkCommon
  import opened DirectConfig

  class ImageDirectEncodingGenerator {
    const lenInput: int
    const lenOutput: int
    const config: Config
    /** The precalculated pixel count; documented as width * height. */
    var size: int
    /** The gene the base class stores before calling _initialise. */
    var gene: Gene
    var initialised: bool

    ghost predicate Valid()
      reads this
    {
      && ValidateConfig(config).Success? && FitsInt32(config)
      && (initialised ==> InitialiseCheck(size, gene) == Pass && Uniform(gene))
    }

    /**
     * The public constructor; a configuration its checks refuse is fatal.
     * The last statement assigns the field to the local product instead of
     * the other way round, so `size` keeps its initial 0 and the documented
     * `size == width * height` never holds.
     */
    constructor (lenInput: int, lenOutput: int, config: Config)
      requires ValidateConfig(config).Success? && FitsInt32(config)
      ensures Valid() && !initialised
      ensures this.lenInput == lenInput && this.lenOutput == lenOutput && this.config == config
      ensures size == 0 && size != config.width * config.height
    {
      this.lenInput := lenInput;
      this.lenOutput := lenOutput;
      this.config := config;
      size := 0;
      gene := [];
      initialised := false;
      new;
      var product := config.width * config.height;
      product := size;
    }

    /**
     * The constructor with the assignment the size documentation describes,
     * `_size = size`: the same checks, and `size` is the pixel count.
     */
    constructor WithDocumentedSize(lenInput: int, lenOutput: int, config: Config)
      requires ValidateConfig(config).Success? && FitsInt32(config)
      ensures Valid() && !initialised
      ensures this.lenInput == lenInput && this.lenOutput == lenOutput && this.config == config
      ensures size == config.width * config.height
    {
      this.lenInput := lenInput;
      this.lenOutput := lenOutput;
      this.config := config;
      size := config.width * config.height;
      gene := [];
      initialised := false;
    }

    /** The sizing getRandomGene hands to the gene constructor: `size` segments of three values. */
    function RandomGeneRequest(): (req: GeneRequest)
      reads this
      ensures req.segments == size && req.segmentWidth == 3
    {
      GeneRequest(size, 3)
    }

    /** A new, uninitialised network with the same lengths and configuration. */
    method CreateConfigCopy() returns (copy: ImageDirectEncodingGenerator)
      requires Valid()
      ensures fresh(copy) && copy.Valid() && !copy.initialised && copy.size == 0
      ensures copy.lenInput == lenInput && copy.lenOutput == lenOutput && copy.config == config
    {
      copy := new ImageDirectEncodingGenerator(lenInput, lenOutput, config);
    }

    /**
     * initialise(gene) followed by _initialise. A failed check is fatal;
     * here it is returned and the object is left as it was.
     */
    method Initialise(g: Gene) returns (r: Outcome<InitError>)
      requires Valid() && Uniform(g)
      modifies this
      ensures Valid() && size == old(size)
      ensures r == InitialiseCheck(size, g)
      ensures r == Pass ==> initialised && gene == g
      ensures r != Pass ==> initialised == old(initialised) && gene == old(gene)
    {
      if |g| != size {
        return Fail(SegmentCountMismatch);
      }
      if |g| == 0 {
        return Fail(MissingFirstSegment);
      }
      if |g[0]| != 3 {
        return Fail(SegmentWidthNotThree);
      }
      gene := g;
      initialised := true;
      r := Pass;
    }

    /** An initialised gene with `size == width * height` holds three values for every pixel. */
    lemma InitialisedGeneCovers()
      requires Valid() && initialised && size == config.width * config.height
      ensures Covers(config, gene)
    {
      PassingGeneCovers(config, gene);
    }

    /**
     * The inner loop of _processInput: every pixel of row y, left to right.
     * `written` lists the pixels in the order they are set.
     */
    method RenderRow(decode: int -> real, image: array2<Rgb>, y: int) returns (ghost written: seq<(int, int)>)
      requires 0 <= y < config.height && Covers(config, gene)
      requires image.Length0 == config.width && image.Length1 == config.height
      modifies image
      ensures written == Row(config.width, y)
      ensures forall x :: 0 <= x < image.Length0 ==> image[x, y] == DirectPixel(decode, config, gene, x, y)
      ensures forall i, j :: 0 <= i < image.Length0 && 0 <= j < image.Length1 && j != y ==>
        image[i, j] == old(image[i, j])
    {
      written := [];
      var x := 0;
      while x < config.width
        invariant 0 <= x <= image.Length0
        invariant written == Row(config.width, y)[..x]
        invariant forall i :: 0 <= i < x ==> image[i, y] == DirectPixel(decode, config, gene, i, y)
        invariant forall i, j :: 0 <= i < image.Length0 && 0 <= j < image.Length1 && j != y ==>
          image[i, j] == old(image[i, j])
      {
        assert config.width * y + x == SegmentIndex(config, x, y);
        var seg := gene[config.width * y + x];
        var r := decode(seg[0]).Floor;
        var g := decode(seg[1]).Floor;
        var b := decode(seg[2]).Floor;
        image[x, y] := Rgb(r, g, b);
        assert Row(config.width, y)[..x + 1] == Row(config.width, y)[..x] + [(x, y)];
        written := written + [(x, y)];
        x := x + 1;
      }
      assert Row(config.width, y)[..config.width] == Row(config.width, y);
    }

    /**
     * _processInput: one pixel per segment, row by row. The input list is
     * ignored: nothing in the result depends on it. `order` lists the pixels
     * in the order they are set. The source saves the image to the
     * configured path; here it is returned.
     */
    method ProcessInput(decode: int -> real, input: seq<real>) returns (image: array2<Rgb>, ghost order: seq<(int, int)>)
      requires Valid() && initialised && size == config.width * config.height
      ensures fresh(image)
      ensures image.Length0 == config.width && image.Length1 == config.height
      ensures forall x, y :: 0 <= x < image.Length0 && 0 <= y < image.Length1 ==>
        image[x, y] == DirectPixel(decode, config, gene, x, y)
      ensures order == RowMajor(config.width, config.height)
    {
      InitialisedGeneCovers();
      image := new Rgb[config.width, config.height];
      order := [];
      var y := 0;
      while y < config.height
        invariant 0 <= y <= image.Length1
        invariant order == RowMajor(config.width, y)
        invariant forall i, j :: 0 <= i < image.Length0 && 0 <= j < y ==>
          image[i, j] == DirectPixel(decode, config, gene, i, j)
      {
        var written := RenderRow(decode, image, y);
        order := order + written;
        y := y + 1;
      }
    }

    /** Always 0.0: the network produces no useful output. */
    function GetNeuronOutput(i: int): (r: real)
      ensures r == 0.0
    {
      0.0
    }

    /** _saveNetworkConfig: width, height and save path, and no neuron records. It always reports success. */
    method SaveNetworkConfig() returns (saved: bool, report: ConfigReport)
      ensures saved
      ensures report.networkName == "ImageDirectEncodingGeneratorNetwork"
      ensures report.network.Keys == {"width", "height", "Save path"}
      ensures report.network["width"] == Integer(config.width) && report.network["height"] == Integer(config.height)
      ensures report.network["Save path"] == Text(config.imagePath)
      ensures report.neurons == []
    {
      var settings := map["width" := Integer(config.width), "height" := Integer(config.height),
                          "Save path" := Text(config.imagePath)];
      saved := true;
      report := ConfigReport("ImageDirectEncodingGeneratorNetwork", settings, []);
    }
  }

  /**
   * As constructed, the network asks for a gene of no segments, and no gene
   * whatsoever passes its _initialise: the empty one fails reading segment 0,
   * every other one fails the count check.
   */
  method FreshNetworkRejectsEveryGene(config: Config, g: Gene) returns (req: GeneRequest, r: Outcome<InitError>)
    requires ValidateConfig(config).Success? && FitsInt32(config) && Uniform(g)
    ensures req == GeneRequest(0, 3)
    ensures r.Fail?
    ensures |g| == 0 ==> r == Fail(MissingFirstSegment)
    ensures |g| > 0 ==> r == Fail(SegmentCountMismatch)
  {
    var network := new ImageDirectEncodingGenerator(1, 1, config);
    req := network.RandomGeneRequest();
    r := network.Initialise(g);
  }

  /**
   * With the documented size, the whole life cycle runs: a gene passes
   * _initialise exactly when it has one three-value segment per pixel, and
   * then _processInput draws pixel (x, y) from segment width * y + x.
   */
  method RenderWithDocumentedSize(config: Config, decode: int -> real, g: Gene)
    returns (r: Outcome<InitError>, image: array2<Rgb>)
    requires ValidateConfig(config).Success? && FitsInt32(config) && Uniform(g)
    ensures fresh(image)
    ensures r == InitialiseCheck(config.width * config.height, g)
    ensures r == Pass <==> |g| == config.width * config.height && |g[0]| == 3
    ensures r == Pass ==> Covers(config, g)
    ensures r == Pass ==> image.Length0 == config.width && image.Length1 == config.height
    ensures r == Pass ==> forall x, y :: 0 <= x < config.width && 0 <= y < config.height ==>
      image[x, y] == DirectPixel(decode, config, g, x, y)
  {
    var network := new ImageDirectEncodingGenerator.WithDocumentedSize(1, 1, config);
    r := network.Initialise(g);
    if r == Pass {
      PassingGeneCovers(config, g);
      ghost var order;
      image, order := network.ProcessInput(decode, []);
    } else {
      image := new Rgb[0, 0];
    }
  }
}
