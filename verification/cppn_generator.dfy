/**
 * The CPPN image generator network as an object: its configuration, the
 * gene it was initialised with, and the operations that read them.
 */
module CppnGenerator {
  import opened CppSemantics
  import opened NetworkCommon
  import opened CppnConfig
  import opened CppnEval
  import opened CppnReport

  /**
   * The inner loop of _processInput: the weighted sum over the first n
   * units of `network` that the segment enables.
   */
  method AccumulateInputs(num: Numerics, seg: seq<int>, network: array<real>, n: int) returns (value: real)
    requires 0 <= n <= network.Length && 2 * n < |seg|
    ensures value == WeightedSum(num.weight, seg, network[..n], n)
  {
    ghost var net := network[..n];
    value := 0.0;
    var input := 0;
    while input < n
      invariant 0 <= input <= n
      invariant value == WeightedSum(num.weight, seg, net, input)
    {
      assert network[input] == net[input];
      assert WeightedSum(num.weight, seg, net, input + 1) == WeightedSum(num.weight, seg, net, input)
        + (if Enabled(seg[1 + 2 * input]) then net[input] * num.weight(seg[1 + 2 * input + 1]) else 0.0);
      if Rem(seg[1 + (2 * input)], 2) != 0 {
        value := value + network[input] * num.weight(seg[1 + (2 * input) + 1]);
      }
      input := input + 1;
    }
  }

  /** One iteration of the neuron loop of _saveNetworkConfig. */
  method DescribeNeuron(num: Numerics, seg: seq<int>, neuron: nat) returns (record: NeuronRecord)
    requires 2 * neuron + 9 <= |seg|
    ensures record == NeuronRecord(neuron - 4, InputConfig(num.weight, seg, 4), ConnectionMap(num.weight, seg, neuron))
  {
    var configNeuron := map["function" := Text(FunctionName(seg[0]))];
    var connections: map<int, real> := map[];
    var input := 0;
    while input < neuron + 4
      invariant 0 <= input <= neuron + 4
      invariant configNeuron == InputConfig(num.weight, seg, if input < 4 then input else 4)
      invariant connections == ConnectionMap(num.weight, seg, if input < 4 then 0 else input - 4)
    {
      if Enabled(seg[1 + (2 * input)]) {
        if input <= 3 {
          configNeuron := configNeuron[InputKey(input) := Number(num.weight(seg[1 + (2 * input) + 1]))];
        } else {
          connections := connections[input - 4 := num.weight(seg[1 + (2 * input) + 1])];
        }
      }
      input := input + 1;
    }
    record := NeuronRecord(neuron - 4, configNeuron, connections);
  }

  class ImageCppnGenerator {
    const lenInput: int
    const lenOutput: int
    const config: Config
    /** The gene the base class stores before calling _initialise. */
    var gene: Gene
    var initialised: bool

    ghost predicate Valid()
      reads this
    {
      && ValidateConfig(config).Success?
      && (initialised ==> |gene| > 0 && Uniform(gene) && ShapeOk(gene) && ReadsInBounds(gene))
    }

    /** The public constructor; a configuration its checks refuse is fatal. */
    constructor (lenInput: int, lenOutput: int, config: Config)
      requires ValidateConfig(config).Success?
      ensures Valid() && !initialised
      ensures this.lenInput == lenInput && this.lenOutput == lenOutput && this.config == config
    {
      this.lenInput := lenInput;
      this.lenOutput := lenOutput;
      this.config := config;
      gene := [];
      initialised := false;
    }

    /** A new, uninitialised network with the same lengths and configuration. */
    method CreateConfigCopy() returns (copy: ImageCppnGenerator)
      requires Valid()
      ensures fresh(copy) && copy.Valid() && !copy.initialised
      ensures copy.lenInput == lenInput && copy.lenOutput == lenOutput && copy.config == config
    {
      copy := new ImageCppnGenerator(lenInput, lenOutput, config);
    }

    /**
     * initialise(gene) followed by _initialise. A failed shape check is
     * fatal. The check reads segment 0, which an empty gene does not have:
     * undefined behaviour in a release build (only a debug build's assertion
     * aborts). Here both return false and leave the object as it was.
     */
    method Initialise(g: Gene) returns (ok: bool)
      requires Valid() && Uniform(g)
      modifies this
      ensures Valid()
      ensures ok <==> |g| > 0 && ShapeOk(g)
      ensures ok ==> initialised && gene == g
      ensures !ok ==> initialised == old(initialised) && gene == old(gene)
    {
      if |g| == 0 {
        return false;
      }
      ok := |g[0]| >= 1 + 4 * 2 + |g| * 2 + 3 * 2;
      if ok {
        ShapeChecksKeepReadsInBounds(g);
        gene := g;
        initialised := true;
      }
    }

    /** The body of the pixel loop of _processInput: fill `network`, then read the outputs. */
    method EvaluatePixel(num: Numerics, x: int, y: int) returns (pixel: Rgb)
      requires config.width > 0 && config.height > 0 && ReadsInBounds(gene)
      ensures pixel == Pixel(num, config, gene, x, y)
    {
      var neurons := 4 + |gene|;
      var network := new real[neurons];
      network[0] := 1.0;
      network[1] := x as real / config.width as real;
      network[2] := y as real / config.height as real;
      network[3] := num.radial(Abs(x - config.width / 2) * Abs(y - config.height / 2), config.width * config.height);
      ghost var inputs := PixelInputs(num, config, x, y);
      assert network[..4] == inputs;
      var neuron := 0;
      while neuron < |gene|
        invariant 0 <= neuron <= |gene|
        invariant network[..4 + neuron] == Network(num, gene, inputs, neuron)
      {
        ghost var net := network[..4 + neuron];
        var seg := gene[neuron];
        var value := AccumulateInputs(num, seg, network, neuron + 4);
        network[4 + neuron] := ApplyFunction(num, value, seg[0]);
        assert network[..4 + neuron + 1] == net + [NeuronValue(num, seg, net)];
        neuron := neuron + 1;
      }
      assert network[..] == network[..4 + |gene|];
      pixel := Rgb(Channel(network[neurons - 3]), Channel(network[neurons - 2]), Channel(network[neurons - 1]));
    }

    /** The inner loop of _processInput: every pixel of column x, top to bottom. */
    method RenderColumn(num: Numerics, image: array2<Rgb>, x: int)
      requires config.width > 0 && ReadsInBounds(gene)
      requires 0 <= x < image.Length0 && image.Length1 == Extent(config.height)
      modifies image
      ensures forall j :: 0 <= j < image.Length1 ==> image[x, j] == Pixel(num, config, gene, x, j)
      ensures forall i, j :: 0 <= i < image.Length0 && i != x && 0 <= j < image.Length1 ==>
        image[i, j] == old(image[i, j])
    {
      var y := 0;
      while y < config.height
        invariant 0 <= y <= image.Length1
        invariant forall j :: 0 <= j < y ==> image[x, j] == Pixel(num, config, gene, x, j)
        invariant forall i, j :: 0 <= i < image.Length0 && i != x && 0 <= j < image.Length1 ==>
          image[i, j] == old(image[i, j])
      {
        var pixel := EvaluatePixel(num, x, y);
        image[x, y] := pixel;
        y := y + 1;
      }
    }

    /**
     * _processInput: one evaluation per pixel, column by column. The input
     * list is ignored. The source builds the image and then drops it; here
     * it is returned so that its content can be stated.
     */
    method ProcessInput(num: Numerics, input: seq<real>) returns (image: array2<Rgb>)
      requires Valid() && initialised
      ensures fresh(image)
      ensures image.Length0 == Extent(config.width) && image.Length1 == Extent(config.height)
      ensures forall x, y :: 0 <= x < image.Length0 && 0 <= y < image.Length1 ==>
        image[x, y] == Pixel(num, config, gene, x, y)
    {
      assert ReadsInBounds(gene);
      image := new Rgb[Extent(config.width), Extent(config.height)];
      var x := 0;
      while x < config.width
        invariant 0 <= x <= image.Length0
        invariant forall i, j :: 0 <= i < x && 0 <= j < image.Length1 ==>
          image[i, j] == Pixel(num, config, gene, i, j)
      {
        RenderColumn(num, image, x);
        x := x + 1;
      }
    }

    /** Always 0.0: the network produces no useful output. */
    function GetNeuronOutput(i: int): (r: real)
      ensures r == 0.0
    {
      0.0
    }

    /**
     * _saveNetworkConfig: the network settings, then one record per neuron.
     * It always reports success.
     */
    method SaveNetworkConfig(num: Numerics) returns (saved: bool, report: ConfigReport)
      requires Valid() && initialised
      ensures saved
      ensures report.networkName == "ImageCPPNGeneratorNetwork"
      ensures report.network == map["width" := Integer(config.width), "height" := Integer(config.height),
                                    "min hidden neurons" := Integer(config.minSize),
                                    "max hidden neurons" := Integer(config.maxSize)]
      ensures |report.neurons| == |gene|
      ensures forall i :: 0 <= i < |gene| ==> Describes(report.neurons[i], num.weight, gene[i], i)
    {
      var settings := map["width" := Integer(config.width), "height" := Integer(config.height),
                          "min hidden neurons" := Integer(config.minSize),
                          "max hidden neurons" := Integer(config.maxSize)];
      var records: seq<NeuronRecord> := [];
      var neuron := 0;
      while neuron < |gene|
        invariant 0 <= neuron <= |gene| && |records| == neuron
        invariant forall i :: 0 <= i < neuron ==> Describes(records[i], num.weight, gene[i], i)
      {
        var record := DescribeNeuron(num, gene[neuron], neuron);
        BuiltRecordDescribes(num.weight, gene[neuron], neuron);
        records := records + [record];
        neuron := neuron + 1;
      }
      saved := true;
      report := ConfigReport("ImageCPPNGeneratorNetwork", settings, records);
    }
  }
}
