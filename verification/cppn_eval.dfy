/**
 * The per-pixel evaluation of the CPPN generator, as a specification over
 * `real`: the floating-point primitives are left abstract in `Numerics`,
 * while the index arithmetic, the enable test, the activation dispatch and
 * the channel clamp are modelled exactly.
 */
module CppnEval {
  import opened CppSemantics
  import opened NetworkCommon
  import opened CppnConfig

  /**
   * The floating-point collaborators: qCos, qSin, qTan, sigmoid,
   * weight(value, 1), and the radial input
   * qSqrt(product) / (qSqrt(area) / 2).
   */
  datatype Numerics = Numerics(
    cos: real -> real,
    sin: real -> real,
    tan: real -> real,
    sigmoid: real -> real,
    weight: int -> real,
    radial: (int, int) -> real)

  /** An input is connected when its enable value has a non-zero C++ remainder modulo 2. */
  predicate Enabled(e: int)
  {
    Rem(e, 2) != 0
  }

  /** Negative odd enable values switch an input on as well. */
  lemma EnabledIffOdd(e: int)
    ensures Enabled(e) <==> e % 2 == 1
  {
    RemMatchesEuclidean(e, 2);
  }

  /**
   * applyFunction: dispatch on the C++ remainder geneValue % 5. Remainders
   * 0..4 select cos, sin, tan, identity and sigmoid; the negative remainders
   * -1..-4 reach the default branch, which logs and returns the value.
   */
  function ApplyFunction(num: Numerics, value: real, geneValue: int): (r: real)
    ensures geneValue % 5 == 0 ==> r == num.cos(value)
    ensures geneValue >= 0 && geneValue % 5 == 1 ==> r == num.sin(value)
    ensures geneValue >= 0 && geneValue % 5 == 2 ==> r == num.tan(value)
    ensures geneValue >= 0 && geneValue % 5 == 4 ==> r == num.sigmoid(value)
    ensures geneValue % 5 == 3 || (geneValue < 0 && geneValue % 5 != 0) ==> r == value
  {
    RemMatchesEuclidean(geneValue, 5);
    match Rem(geneValue, 5)
    case 0 => num.cos(value)
    case 1 => num.sin(value)
    case 2 => num.tan(value)
    case 3 => value
    case 4 => num.sigmoid(value)
    case _ => value
  }

  /**
   * The accumulated `value` after the first n inputs of a neuron whose
   * segment is `seg`, reading the unit values `net`.
   */
  function WeightedSum(weight: int -> real, seg: seq<int>, net: seq<real>, n: nat): real
    requires n <= |net| && 2 * n < |seg|
  {
    if n == 0 then 0.0
    else
      WeightedSum(weight, seg, net, n - 1)
      + (if Enabled(seg[2 * n - 1]) then net[n - 1] * weight(seg[2 * n]) else 0.0)
  }

  /** Only enabled inputs matter: units behind a disabled input may hold anything. */
  lemma {:induction false} SumIgnoresDisabledInputs(weight: int -> real, seg: seq<int>, net1: seq<real>, net2: seq<real>, n: nat)
    requires n <= |net1| && n <= |net2| && 2 * n < |seg|
    requires forall j :: 0 <= j < n && Enabled(seg[2 * j + 1]) ==> net1[j] == net2[j]
    ensures WeightedSum(weight, seg, net1, n) == WeightedSum(weight, seg, net2, n)
  {
    if n > 0 {
      SumIgnoresDisabledInputs(weight, seg, net1, net2, n - 1);
    }
  }

  /**
   * Changing unit j changes the sum by (new - old) * weight exactly when
   * input j is enabled, and leaves it alone otherwise.
   */
  lemma {:induction false} SumContribution(weight: int -> real, seg: seq<int>, net: seq<real>, n: nat, j: nat, v: real)
    requires j < n <= |net| && 2 * n < |seg|
    ensures WeightedSum(weight, seg, net[j := v], n)
      == WeightedSum(weight, seg, net, n) + (if Enabled(seg[2 * j + 1]) then (v - net[j]) * weight(seg[2 * j + 2]) else 0.0)
  {
    if n - 1 == j {
      SumIgnoresDisabledInputs(weight, seg, net[j := v], net, n - 1);
    } else {
      SumContribution(weight, seg, net, n - 1, j, v);
    }
  }

  /** The value stored for a neuron whose segment is `seg`, reading all units before it. */
  function NeuronValue(num: Numerics, seg: seq<int>, net: seq<real>): real
    requires 2 * |net| < |seg|
  {
    ApplyFunction(num, WeightedSum(num.weight, seg, net, |net|), seg[0])
  }

  /**
   * The `network` array after the first k neurons: the four inputs, then
   * one value per neuron.
   */
  function Network(num: Numerics, g: Gene, inputs: seq<real>, k: nat): (net: seq<real>)
    requires |inputs| == 4 && k <= |g| && ReadsInBounds(g)
    ensures |net| == 4 + k && net[..4] == inputs
    decreases k
  {
    if k == 0 then inputs
    else
      var prev := Network(num, g, inputs, k - 1);
      prev + [NeuronValue(num, g[k - 1], prev)]
  }

  /**
   * Feed-forward order: unit 4 + i is computed from the units before it
   * and from segment i alone.
   */
  lemma {:induction false} NetworkIsFeedForward(num: Numerics, g: Gene, inputs: seq<real>, k: nat, i: nat)
    requires |inputs| == 4 && i < k <= |g| && ReadsInBounds(g)
    ensures var net := Network(num, g, inputs, k);
      net[4 + i] == NeuronValue(num, g[i], net[..4 + i])
  {
    var net, prev := Network(num, g, inputs, k), Network(num, g, inputs, i);
    NetworkPrefix(num, g, inputs, i + 1, k);
    assert Network(num, g, inputs, i + 1) == prev + [NeuronValue(num, g[i], prev)];
    assert net[4 + i] == net[..5 + i][4 + i];
    assert net[..4 + i] == net[..5 + i][..4 + i];
  }

  /** Evaluating more neurons never changes the units already computed. */
  lemma {:induction false} NetworkPrefix(num: Numerics, g: Gene, inputs: seq<real>, j: nat, k: nat)
    requires |inputs| == 4 && j <= k <= |g| && ReadsInBounds(g)
    ensures Network(num, g, inputs, k)[..4 + j] == Network(num, g, inputs, j)
    decreases k
  {
    if j < k {
      var prev := Network(num, g, inputs, k - 1);
      assert Network(num, g, inputs, k) == prev + [NeuronValue(num, g[k - 1], prev)];
      assert Network(num, g, inputs, k)[..4 + j] == prev[..4 + j];
      NetworkPrefix(num, g, inputs, j, k - 1);
    }
  }

  /** The first k neurons depend on the first k segments only. */
  lemma {:induction false} NetworkCausal(num: Numerics, g1: Gene, g2: Gene, inputs: seq<real>, k: nat)
    requires |inputs| == 4 && k <= |g1| && k <= |g2| && ReadsInBounds(g1) && ReadsInBounds(g2)
    requires g1[..k] == g2[..k]
    ensures Network(num, g1, inputs, k) == Network(num, g2, inputs, k)
  {
    if k > 0 {
      assert g1[..k - 1] == g1[..k][..k - 1] && g2[..k - 1] == g2[..k][..k - 1];
      assert g1[k - 1] == g1[..k][k - 1] && g2[k - 1] == g2[..k][k - 1];
      NetworkCausal(num, g1, g2, inputs, k - 1);
    }
  }

  /**
   * Causality of the whole evaluation: two genes that agree on segments
   * 0..i give the same units network[0..4+i], whatever the later segments hold.
   */
  lemma LaterSegmentsIrrelevant(num: Numerics, g1: Gene, g2: Gene, inputs: seq<real>, i: nat)
    requires |inputs| == 4 && ReadsInBounds(g1) && ReadsInBounds(g2)
    requires i < |g1| && i < |g2| && g1[..i + 1] == g2[..i + 1]
    ensures Network(num, g1, inputs, |g1|)[..5 + i] == Network(num, g2, inputs, |g2|)[..5 + i]
  {
    NetworkPrefix(num, g1, inputs, i + 1, |g1|);
    NetworkPrefix(num, g2, inputs, i + 1, |g2|);
    NetworkCausal(num, g1, g2, inputs, i + 1);
  }

  /** qFloor(qBound(0.0, v * 255, 255.0)) */
  function Channel(v: real): (c: int)
    ensures 0 <= c <= 255
    ensures v <= 0.0 ==> c == 0
    ensures v >= 1.0 ==> c == 255
    ensures 0.0 <= v <= 1.0 ==> c as real <= v * 255.0 < c as real + 1.0
  {
    Bound(0.0, v * 255.0, 255.0).Floor
  }

  /**
   * The integer argument of the radial input, |x - x_center| * |y - y_center|:
   * a product of the offsets, not a Euclidean distance, so it vanishes on the
   * whole centre row and centre column. For positive sizes the truncating
   * C++ `/ 2` and Dafny's Euclidean one agree.
   */
  function RadialArgument(c: Config, x: int, y: int): (p: int)
    requires c.width > 0 && c.height > 0
    ensures p >= 0
    ensures p == 0 <==> x == c.width / 2 || y == c.height / 2
  {
    var dx, dy := Abs(x - c.width / 2), Abs(y - c.height / 2);
    assert dx > 0 && dy > 0 ==> dx * dy > 0;
    dx * dy
  }

  /** network[0..3] for pixel (x, y): bias, normalised x, normalised y, radial input. */
  function PixelInputs(num: Numerics, c: Config, x: int, y: int): (inputs: seq<real>)
    requires c.width > 0 && c.height > 0
    ensures |inputs| == 4 && inputs[0] == 1.0
  {
    [1.0, x as real / c.width as real, y as real / c.height as real,
     num.radial(RadialArgument(c, x, y), c.width * c.height)]
  }

  /**
   * The pixel written at (x, y): the last three units, scaled and clamped.
   * With fewer than three segments (which _initialise does not refuse) some
   * channels come straight from the fixed inputs.
   */
  function Pixel(num: Numerics, c: Config, g: Gene, x: int, y: int): (px: Rgb)
    requires c.width > 0 && c.height > 0 && ReadsInBounds(g)
    ensures 0 <= px.r <= 255 && 0 <= px.g <= 255 && 0 <= px.b <= 255
  {
    var net := Network(num, g, PixelInputs(num, c, x, y), |g|);
    var n := 4 + |g|;
    Rgb(Channel(net[n - 3]), Channel(net[n - 2]), Channel(net[n - 1]))
  }

  /** The channels are those of the last three neurons; earlier ones reach them only through connections. */
  lemma PixelFromOutputNeurons(num: Numerics, c: Config, g: Gene, x: int, y: int)
    requires c.width > 0 && c.height > 0 && ReadsInBounds(g) && |g| >= 3
    ensures var net := Network(num, g, PixelInputs(num, c, x, y), |g|);
      Pixel(num, c, g, x, y)
      == Rgb(Channel(NeuronValue(num, g[|g| - 3], net[..|g| + 1])),
             Channel(NeuronValue(num, g[|g| - 2], net[..|g| + 2])),
             Channel(NeuronValue(num, g[|g| - 1], net[..|g| + 3])))
  {
    var inputs := PixelInputs(num, c, x, y);
    NetworkIsFeedForward(num, g, inputs, |g|, |g| - 3);
    NetworkIsFeedForward(num, g, inputs, |g|, |g| - 2);
    NetworkIsFeedForward(num, g, inputs, |g|, |g| - 1);
  }
}
