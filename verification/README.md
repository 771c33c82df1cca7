# qnn-image-generators in Dafny

A Dafny model of the two image generator networks of qnn-image-generators.
Neither is a neural network in the usual sense. Each turns an integer gene
into an RGB raster. A gene is a list of equal-width integer segments.

- **CPPN generator** (`ImageCPPNGeneratorNetwork`). Segment `i` describes
  neuron `i`:
  - offset 0 selects the activation function (cos, sin, tan, identity or
    sigmoid, chosen by the C++ remainder `% 5`);
  - every input `j` of the neuron has an enable value at offset `1 + 2j`
    (C++ `% 2` non-zero) and a weight at offset `2 + 2j`;
  - neuron `i` reads the four fixed inputs (bias, normalised x, normalised y,
    radial value) and every earlier neuron;
  - the last three neurons give red, green and blue, scaled by 255, clamped
    to [0, 255] and floored.

  The model covers:
  - the constructor checks and the sizing of `getRandomGene`;
  - the shape check of `_initialise`;
  - the per-pixel feed-forward evaluation, with its causality;
  - the channel clamp;
  - the activation dispatch;
  - the per-neuron report of `_saveNetworkConfig`.
- **Direct-encoding generator** (`ImageDirectEncodingGeneratorNetwork`).
  - Each pixel `(x, y)` is stored in its own segment `width * y + x`, as three
    values: red, green and blue.
  - The model covers the constructor and its `_size` field, `getRandomGene`,
    the checks of `_initialise`, the row-major pixel loops and the report.

Modules:

- `CppSemantics`: the C++ truncated remainder (Dafny's `%` is Euclidean) and
  Qt's `qBound`.
- `NetworkCommon`: genes, pixels, configuration values and reports.
- `CppnConfig`, `CppnEval`, `CppnReport`: the CPPN generator's pure parts.
- `CppnGenerator`: the CPPN network as a class.
- `DirectConfig`: the direct-encoding generator's pure parts.
- `DirectGenerator`: the direct-encoding network as a class.

Floating point works as follows:

- The numeric collaborators are parameters and stay abstract: `qCos`, `qSin`,
  `qTan`, `sigmoid`, `weight(value, 1)`, the radial input and
  `floatFromGeneInput(value, 255)`.
- The CPPN primitives are bundled in the datatype `CppnEval.Numerics`.
- Sums and products are taken over `real`.

The logic around those numbers is modelled branch for branch: index
arithmetic, enable tests, dispatch, clamping and flooring. Integers are
unbounded (see "## Left out" for the 32-bit overflows this leaves out).

Some behaviour of the code worth stating plainly, which the model keeps:

- The CPPN constructor does not check width or height.
- The CPPN `_initialise` does not demand at least three segments.
- The radial input is `sqrt(|dx| * |dy|)`, not a Euclidean distance.
- The CPPN `_processInput` never saves the image it draws.

Three faults of the code are exposed by lemmas (see "## Findings"):

- the doubled output count in the CPPN shape check, which the CPPN class
  keeps as written;
- the remainder by max_size - min_size in the CPPN `getRandomGene`, which is
  zero for a configuration the constructor accepts;
- the `size = _size` assignment of the direct-encoding constructor. The class
  has both the constructor as written and one with the documented
  `_size = size`.

## Model

| member | source | states |
|---|---|---|
| CppSemantics.Rem | src/network/imagecppngeneratornetwork.cpp:179 | C++ remainder: sign of the dividend, magnitude below the divisor, and it differs from the dividend by a multiple of the divisor |
| CppSemantics.RemMatchesEuclidean | src/network/imagecppngeneratornetwork.cpp:94 | the C++ remainder equals the Euclidean one for non-negative or divisible dividends, and is that minus the modulus otherwise |
| CppSemantics.Bound | src/network/imagecppngeneratornetwork.cpp:101-103 | qBound lies between its bounds, keeps a value inside them, and returns the bound the value crosses |
| CppnConfig.ValidateConfig | src/network/imagecppngeneratornetwork.cpp:22-33 | accepts exactly when 0 < min_size <= max_size, then keeps the config unchanged; fails with max_size first, then min_size, then their order; width and height are not checked |
| CppnConfig.DefaultConfigRejected | src/network/imagecppngeneratornetwork.h:17-22 | the default config is 256 x 256 with path ./qnn-image-generators-CPPN.png, and the constructor refuses it because min_size is 0 |
| CppnConfig.DefaultConfig | src/network/imagecppngeneratornetwork.h:17-24 | the values of the config struct's default constructor (stated by DefaultConfigRejected) |
| CppnConfig.EqualSizesAccepted | src/network/imagecppngeneratornetwork.cpp:30 | every config with 0 < min_size == max_size passes the constructor's checks, yet fails the min_size < max_size that getRandomGene needs for a non-zero modulus |
| CppnConfig.IntendedRandomGeneRequest | src/network/imagecppngeneratornetwork.cpp:42-47 | with the remainder by max_size - min_size + 1, every accepted config gives a request, with a count in [min_size + 3, max_size + 3] |
| CppnConfig.IntendedRandomGeneFits | src/network/imagecppngeneratornetwork.cpp:45-47 | the intended sizing reaches every count up to max_size + 3, and its segment width fits the widest neuron of each |
| CppnConfig.RandomGeneRequest | src/network/imagecppngeneratornetwork.cpp:45-47 | getRandomGene asks for segments of width 15 + 2 * max_size, and for a count in [min_size + 3, max_size + 2] |
| CppnConfig.RandomGeneCountsReachable | src/network/imagecppngeneratornetwork.cpp:45 | every count in [min_size + 3, max_size + 2] is requested for some random value |
| CppnConfig.RandomGeneRejectedAsWritten | src/network/imagecppngeneratornetwork.cpp:63 | a random gene passes the shape check iff it has at most max_size segments; none passes when max_size - min_size < 3 |
| CppnConfig.RandomGeneRejectedExample | src/network/imagecppngeneratornetwork.cpp:45-47 | sizes 1..10 with random value 8 request 12 segments of width 35, which the shape check refuses |
| CppnConfig.RandomGeneAcceptedAsIntended | src/network/imagecppngeneratornetwork.cpp:63 | under the check that counts each neuron once, every random gene is accepted |
| CppnConfig.ShapeOk | src/network/imagecppngeneratornetwork.cpp:63 | the shape check as written: segment 0 holds 1 + 4*2 + count*2 + 3*2 values (properties in the lemmas around it) |
| CppnConfig.IntendedShapeOk | src/network/imagecppngeneratornetwork.cpp:63 | the corrected check, 1 + 4*2 + count*2 values (properties in RandomGeneAcceptedAsIntended and ShapeChecksKeepReadsInBounds) |
| CppnConfig.ShapeChecksKeepReadsInBounds | src/network/imagecppngeneratornetwork.cpp:62-66 | for a uniform gene, the check as written implies the intended one, and the intended one keeps every offset the evaluation reads (up to 2 * neuron + 8) inside its segment |
| CppnEval.EnabledIffOdd | src/network/imagecppngeneratornetwork.cpp:94 | an input is enabled exactly when its enable value is odd, negative odd values included |
| CppnEval.Enabled | src/network/imagecppngeneratornetwork.cpp:94 | the enable test, a non-zero C++ remainder modulo 2 (characterised by EnabledIffOdd) |
| CppnEval.ApplyFunction | src/network/imagecppngeneratornetwork.cpp:177-201 | selector remainder 0/1/2/4 applies cos/sin/tan/sigmoid; remainder 3, and every negative selector not divisible by 5, returns the value unchanged |
| CppnEval.WeightedSum | src/network/imagecppngeneratornetwork.cpp:91-97 | the value accumulated over the first n inputs (characterised by SumIgnoresDisabledInputs and SumContribution, computed by AccumulateInputs) |
| CppnEval.NeuronValue | src/network/imagecppngeneratornetwork.cpp:91-99 | the activation of a neuron's weighted sum (used by NetworkIsFeedForward and RecordListsEveryContributingInput) |
| CppnEval.SumIgnoresDisabledInputs | src/network/imagecppngeneratornetwork.cpp:92-97 | the weighted sum depends only on the units whose input is enabled |
| CppnEval.SumContribution | src/network/imagecppngeneratornetwork.cpp:92-97 | changing unit j shifts the sum by (new - old) * weight if input j is enabled, and not at all otherwise |
| CppnEval.Network | src/network/imagecppngeneratornetwork.cpp:84-100 | after k neurons the network holds 4 + k units, of which the first four are the fixed inputs |
| CppnEval.NetworkIsFeedForward | src/network/imagecppngeneratornetwork.cpp:88-99 | unit 4 + i is the activation of segment i applied to units 0..3 + i only |
| CppnEval.NetworkPrefix | src/network/imagecppngeneratornetwork.cpp:88-99 | evaluating further neurons never changes the units already computed |
| CppnEval.NetworkCausal | src/network/imagecppngeneratornetwork.cpp:88-99 | the first k neurons depend on the first k segments only |
| CppnEval.LaterSegmentsIrrelevant | src/network/imagecppngeneratornetwork.cpp:88-99 | genes that agree on segments 0..i give the same units 0..4 + i, whatever their later segments |
| CppnEval.Channel | src/network/imagecppngeneratornetwork.cpp:101-103 | a channel lies in [0, 255]: 0 for values <= 0, 255 for values >= 1, otherwise the floor of value * 255 |
| CppnEval.RadialArgument | src/network/imagecppngeneratornetwork.cpp:83 | the radial argument is a non-negative product of centre offsets, zero exactly on the centre row and centre column |
| CppnEval.PixelInputs | src/network/imagecppngeneratornetwork.cpp:85-88 | there are four fixed inputs, the first being the bias 1.0 |
| CppnEval.Pixel | src/network/imagecppngeneratornetwork.cpp:101-104 | every channel of every pixel lies in [0, 255] |
| CppnEval.PixelFromOutputNeurons | src/network/imagecppngeneratornetwork.cpp:101-103 | with at least three segments, the channels are the clamped values of the last three neurons |
| CppnReport.FunctionName | src/network/imagecppngeneratornetwork.cpp:133-152 | each name is given exactly for its selectors: "cosinus" for multiples of 5, "sinus"/"tangens"/"identity"/"sigmoid" for non-negative selectors with remainder 1/2/3/4, "<unknown error>" for negative selectors not divisible by 5 |
| CppnReport.FunctionNameMatchesDispatch | src/network/imagecppngeneratornetwork.cpp:133-152 | whatever name the report gives, applyFunction applies that function (or returns the value, for "identity" and "<unknown error>") |
| CppnReport.InputKey | src/network/imagecppngeneratornetwork.cpp:162 | an input key has seven characters and never collides with "function" |
| CppnReport.InputKeyInjective | src/network/imagecppngeneratornetwork.cpp:162 | distinct fixed inputs get distinct keys |
| CppnReport.EnabledInputKeys | src/network/imagecppngeneratornetwork.cpp:156-163 | the key of fixed input k is present exactly when k is among those visited and is enabled, "function" is absent, and the set holds no other key |
| CppnReport.InputConfig | src/network/imagecppngeneratornetwork.cpp:154-163 | the config map after the fixed inputs visited so far (characterised by InputConfigContents) |
| CppnReport.InputConfigContents | src/network/imagecppngeneratornetwork.cpp:154-163 | the neuron's config map has key "function" with its name, plus exactly the enabled fixed inputs, each holding its weight |
| CppnReport.DisabledInputsLeaveOnlyFunction | src/network/imagecppngeneratornetwork.cpp:154-163 | a neuron whose four fixed inputs are all disabled has a config map holding only "function" with its name |
| CppnReport.ConnectionMap | src/network/imagecppngeneratornetwork.cpp:164-167 | the connection map after the links visited so far (characterised by ConnectionMapContents) |
| CppnReport.ConnectionMapContents | src/network/imagecppngeneratornetwork.cpp:164-167 | connection key c is present exactly for enabled links from earlier neurons c, each holding its weight |
| CppnReport.Describes | src/network/imagecppngeneratornetwork.cpp:154-171 | what a record of neuron i says, stated independently of the loop: id, function name, enabled inputs with weights, enabled links with weights |
| CppnReport.BuiltRecordDescribes | src/network/imagecppngeneratornetwork.cpp:171 | the record written with id neuron - 4 and the two maps is the full description of the neuron |
| CppnReport.RecordListsEveryContributingInput | src/network/imagecppngeneratornetwork.cpp:156-171 | two unit vectors that agree on every input the record lists give the neuron the same value |
| CppnGenerator.AccumulateInputs | src/network/imagecppngeneratornetwork.cpp:89-97 | the accumulation loop yields the weighted sum over the enabled inputs |
| CppnGenerator.DescribeNeuron | src/network/imagecppngeneratornetwork.cpp:127-171 | the per-neuron loop builds exactly the record with id neuron - 4, config map InputConfig(weights, segment, 4) and connection map ConnectionMap(weights, segment, neuron) |
| CppnGenerator.ImageCppnGenerator.constructor | src/network/imagecppngeneratornetwork.cpp:18-34 | stores lengths and config, for any config the checks accept |
| CppnGenerator.ImageCppnGenerator.CreateConfigCopy | src/network/imagecppngeneratornetwork.cpp:50-53 | a fresh, uninitialised network with the same lengths and config |
| CppnGenerator.ImageCppnGenerator.Initialise | src/network/imagecppngeneratornetwork.cpp:60-66 | accepts a non-empty gene exactly when segment 0 holds at least 15 + 2 * (segment count) values; if it does, the gene is stored; if not, nothing changes |
| CppnGenerator.ImageCppnGenerator.EvaluatePixel | src/network/imagecppngeneratornetwork.cpp:82-104 | filling the network array and reading its last three units gives the specified pixel |
| CppnGenerator.ImageCppnGenerator.RenderColumn | src/network/imagecppngeneratornetwork.cpp:80-104 | the inner loop sets every pixel of column x and no other |
| CppnGenerator.ImageCppnGenerator.ProcessInput | src/network/imagecppngeneratornetwork.cpp:69-108 | a freshly allocated width x height image holds the specified pixel at every position; the input list plays no part |
| CppnGenerator.ImageCppnGenerator.GetNeuronOutput | src/network/imagecppngeneratornetwork.cpp:110-115 | always 0.0 |
| CppnGenerator.ImageCppnGenerator.SaveNetworkConfig | src/network/imagecppngeneratornetwork.cpp:117-175 | reports success, with the name, the four settings and, for each segment, a record that describes that neuron |
| DirectConfig.ValidateConfig | src/network/imagedirectencodinggeneratornetwork.cpp:38-45 | accepts exactly when width and height are positive, keeping the config; width is checked first |
| DirectConfig.DefaultConfig | src/network/imagedirectencodinggeneratornetwork.h:41-46 | the values of the config struct's default constructor (stated by DefaultConfigAccepted) |
| DirectConfig.DefaultConfigAccepted | src/network/imagedirectencodinggeneratornetwork.h:41-46 | the default config is 256 x 256 with path ./qnn-image-generators-direct-encoding.png, and it passes every constructor check |
| DirectConfig.InitialiseCheck | src/network/imagedirectencodinggeneratornetwork.cpp:75-85 | passes exactly when the segment count equals size and segment 0 has three values; a count mismatch is reported first |
| DirectConfig.NoGenePassesSizeZero | src/network/imagedirectencodinggeneratornetwork.cpp:77-84 | with an expected count of 0, every gene fails |
| DirectConfig.DocumentedSizeAcceptsRequestedGene | src/network/imagedirectencodinggeneratornetwork.h:121-126 | with size == width * height, every gene of that many three-value segments passes |
| DirectConfig.PassingGeneCovers | src/network/imagedirectencodinggeneratornetwork.cpp:77-84 | a uniform gene that passes the checks against width * height holds three values for every pixel |
| DirectConfig.SegmentIndex | src/network/imagedirectencodinggeneratornetwork.cpp:96-98 | the segment of a grid pixel lies in [0, width * height) |
| DirectConfig.SegmentIndexDecomposes | src/network/imagedirectencodinggeneratornetwork.cpp:96 | the segment index divided by width gives the row, and its remainder gives the column |
| DirectConfig.SegmentIndexInjective | src/network/imagedirectencodinggeneratornetwork.cpp:92-98 | distinct pixels map to distinct segments |
| DirectConfig.SegmentIndexOnto | src/network/imagedirectencodinggeneratornetwork.cpp:92-98 | every segment of a width * height gene belongs to some grid pixel |
| DirectConfig.SegmentPixel | src/network/imagedirectencodinggeneratornetwork.cpp:96-98 | each channel is the floor of the decoded component 0, 1 or 2 |
| DirectConfig.SegmentPixelReadsFirstThree | src/network/imagedirectencodinggeneratornetwork.h:11 | a pixel depends on its segment's first three components only |
| DirectConfig.DirectPixel | src/network/imagedirectencodinggeneratornetwork.cpp:96-98 | the pixel written at (x, y): the one of segment width * y + x (characterised by PixelDependsOnOwnSegment) |
| DirectConfig.PixelDependsOnOwnSegment | src/network/imagedirectencodinggeneratornetwork.cpp:96-99 | pixel (x, y) is unaffected by every segment except its own |
| DirectConfig.Row | src/network/imagedirectencodinggeneratornetwork.cpp:94 | row y is visited left to right, one entry per column |
| DirectConfig.RowMajor | src/network/imagedirectencodinggeneratornetwork.cpp:92-94 | the order of the visits, row after row (characterised by RowMajorAt and RowMajorVisitsEachPixelOnce) |
| DirectConfig.RowMajorAt | src/network/imagedirectencodinggeneratornetwork.cpp:92-101 | the i-th pixel visited is column i % width of row i / width |
| DirectConfig.RowMajorLength | src/network/imagedirectencodinggeneratornetwork.cpp:92-94 | the loops make width * height visits |
| DirectConfig.RowMajorVisitsEachPixelOnce | src/network/imagedirectencodinggeneratornetwork.cpp:92-101 | every visit is a grid pixel, no pixel is visited twice, and pixel (x, y) is visit number width * y + x |
| DirectGenerator.ImageDirectEncodingGenerator.constructor | src/network/imagedirectencodinggeneratornetwork.cpp:33-52 | stores lengths and config; size stays 0, so the documented size == width * height does not hold |
| DirectGenerator.ImageDirectEncodingGenerator.WithDocumentedSize | src/network/imagedirectencodinggeneratornetwork.cpp:46-51 | the constructor with the evidently intended `_size = size`: same checks, size == width * height |
| DirectGenerator.ImageDirectEncodingGenerator.RandomGeneRequest | src/network/imagedirectencodinggeneratornetwork.cpp:58-61 | asks for size segments of three values |
| DirectGenerator.ImageDirectEncodingGenerator.CreateConfigCopy | src/network/imagedirectencodinggeneratornetwork.cpp:63-66 | a fresh, uninitialised network with the same lengths and config, whose size is again 0 |
| DirectGenerator.ImageDirectEncodingGenerator.Initialise | src/network/imagedirectencodinggeneratornetwork.cpp:75-85 | the result is the outcome of the checks; on success the gene is stored, on failure nothing changes |
| DirectGenerator.ImageDirectEncodingGenerator.InitialisedGeneCovers | src/network/imagedirectencodinggeneratornetwork.h:121-126 | if size == width * height, an initialised gene holds three values for every pixel |
| DirectGenerator.ImageDirectEncodingGenerator.RenderRow | src/network/imagedirectencodinggeneratornetwork.cpp:94-101 | the inner loop sets every pixel of row y, left to right, and no other |
| DirectGenerator.ImageDirectEncodingGenerator.ProcessInput | src/network/imagedirectencodinggeneratornetwork.cpp:87-108 | a freshly allocated width x height image holds at (x, y) the pixel of segment width * y + x; the pixels are set in row-major order; the input list plays no part |
| DirectGenerator.ImageDirectEncodingGenerator.GetNeuronOutput | src/network/imagedirectencodinggeneratornetwork.h:97-105 | always 0.0 |
| DirectGenerator.ImageDirectEncodingGenerator.SaveNetworkConfig | src/network/imagedirectencodinggeneratornetwork.cpp:117-126 | reports success, with exactly width, height and save path, and no neuron records |
| DirectGenerator.RenderWithDocumentedSize | src/network/imagedirectencodinggeneratornetwork.cpp:75-108 | with the documented size, a gene passes _initialise exactly when it has one three-value segment per pixel, and _processInput then draws, into a freshly allocated image, pixel (x, y) from segment width * y + x |
| DirectGenerator.FreshNetworkRejectsEveryGene | src/network/imagedirectencodinggeneratornetwork.cpp:46-51 | a freshly built network requests 0 segments and refuses every gene: the empty gene at segment 0, every other gene at the count check |

## Left out

- Floating point. Cosine, sine, tangent, sigmoid, the weight decoding, the
  radial distance and floatFromGeneInput are opaque parameters. Arithmetic is
  over `real`, with no rounding, NaN or infinity.
- Packing the three channels into a QRgb, QImage itself, and saving the image
  with its warning on failure. `Rgb` holds the three integers passed to
  `qRgb`, and the image is an `array2` indexed `[x, y]`.
- The XML writer. `_saveNetworkConfig` produces a `ConfigReport` value
  instead of writing to a stream.
- `qrand()`. The random value is a parameter.
- Logging. Fatal errors are preconditions of the constructors, or results
  (`Result`, `Outcome`, a `false` return) of the checks.
- The `AbstractNeuralNetwork` base class lifecycle. `Initialise` receives the
  gene directly.
- The gene classes (`GenericGene`, `LengthChangingGene`). They are not part of
  this model: a gene is a uniform `seq<seq<int>>`, and `getRandomGene`
  returns the sizes it would pass to them.
- The unused `LengthChangingGene::config` of the CPPN `getRandomGene`.
- The protected parameterless constructors, which rely on the base class.
- Gene values and the configuration fields (width, height, min_size,
  max_size) are unbounded integers, not `qint32`. The model does not capture
  the 32-bit overflows, which are undefined behaviour, of
  `1 + 4*2 + max_size*2 + 3*2` and `min_size + qrand() % (...) + 3` in the
  CPPN `getRandomGene`, for a max_size near the `qint32` limit that the
  constructor accepts, nor of the `qint32` product
  `qAbs(width - x_center) * qAbs(height - y_center)` of the CPPN
  `_processInput` (CppnEval.RadialArgument), which overflows once both
  half-sizes reach 46341, for example width = height = 92682 at pixel (0, 0);
  the CPPN constructor does not bound width or height.
- Reading segment 0 of an empty gene in either `_initialise` is undefined
  behaviour in a release build (only a debug build's assertion aborts). The
  model treats it as a refusal: `false` from the CPPN `Initialise`, and
  `MissingFirstSegment` from the direct-encoding one.
- DirectConfig.FitsInt32: the direct-encoding overflow guard is modelled as a
  requirement that width * height fits in 32 bits. The code forms the product
  in 32 bits before widening, so as written the guard itself cannot detect
  an overflow.
- CppnConfig.RandomGeneRequest: requires max_size > min_size, since otherwise
  the code takes a remainder by zero. It also requires a non-negative random
  value, which is the range of `qrand()`.
- CppnGenerator.ImageCppnGenerator.ProcessInput: returns the image, which the
  code builds and then drops.
- DirectGenerator.ImageDirectEncodingGenerator.ProcessInput: requires
  size == width * height, the documented invariant. The constructor as written
  never establishes it; `WithDocumentedSize` does, and
  `RenderWithDocumentedSize` runs the full life cycle on it. With the
  constructor as written, no gene can be initialised, so the loops never run.

## Findings

| source | as written | input that shows it | evidently intended | confidence | as-written member | corrected member |
|---|---|---|---|---|---|---|
| src/network/imagecppngeneratornetwork.cpp:63 | the shape check demands 1 + 4*2 + count*2 + 3*2 values, counting the three output neurons twice, since count already includes them | min_size 1, max_size 10, qrand() returning 8: getRandomGene asks for 12 segments of width 35, and the check demands 39 | 1 + 4*2 + count*2, enough for the widest neuron's inputs | not executed | CppnConfig.RandomGeneRejectedExample | CppnConfig.RandomGeneAcceptedAsIntended |
| src/network/imagedirectencodinggeneratornetwork.cpp:51 | `size = _size` copies the field into the local, so `_size` keeps its initial 0 | any valid config, such as 256 x 256: getRandomGene asks for 0 segments, and _initialise refuses every gene | `_size = size`, as the field's documentation says | not executed | DirectGenerator.FreshNetworkRejectsEveryGene | DirectGenerator.ImageDirectEncodingGenerator.WithDocumentedSize |
| src/network/imagecppngeneratornetwork.cpp:45 | the count takes qrand() % (max_size - min_size), a remainder by zero when min_size == max_size, which the constructor (cpp:30) accepts | min_size = max_size = 5: the constructor accepts, and getRandomGene divides by zero | a non-zero divisor; there are two readings of the fix. One is qrand() % (max_size - min_size + 1), so the hidden count spans [min_size, max_size] as the copied length bounds (cpp:43-44) say, and the segment width of cpp:47 is exactly what max_size hidden neurons and three outputs need; this model takes it. The other keeps the half-open range [min_size, max_size) and has the constructor refuse min_size == max_size | not executed | CppnConfig.EqualSizesAccepted | CppnConfig.IntendedRandomGeneRequest |
