/** Values shared by both generator networks: genes, pixels and configuration reports. */
module NetworkCommon {

  datatype Result<T, E> = Success(value: T) | Failure(error: E)

  datatype Outcome<E> = Pass | Fail(error: E)

  /** A gene: an ordered list of segments, each a list of integers. */
  type Gene = seq<seq<int>>

  /** The gene classes keep every segment as wide as the first one. */
  predicate Uniform(g: Gene)
  {
    forall i :: 0 <= i < |g| ==> |g[i]| == |g[0]|
  }

  /** The arguments a generator passes to the gene constructor: segment count and width. */
  datatype GeneRequest = GeneRequest(segments: int, segmentWidth: int)

  /** The three channel values a pixel is built from (the arguments of qRgb). */
  datatype Rgb = Rgb(r: int, g: int, b: int)

  /** The number of pixels QImage gives a dimension: a non-positive one yields an empty image. */
  function Extent(n: int): nat
  {
    if n < 0 then 0 else n
  }

  /** A QVariant as the configuration maps use it. */
  datatype ConfigValue = Integer(i: int) | Number(x: real) | Text(s: string)

  /** One writeConfigNeuron record: id, named settings and weighted links to other neurons. */
  datatype NeuronRecord = NeuronRecord(id: int, config: map<string, ConfigValue>, connections: map<int, real>)

  /** What a network hands to the configuration writer: its name, its settings, its neurons. */
  datatype ConfigReport = ConfigReport(networkName: string, network: map<string, ConfigValue>, neurons: seq<NeuronRecord>)
}
