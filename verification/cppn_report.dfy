/**
 * The structural report _saveNetworkConfig builds for the CPPN generator:
 * one record per neuron, naming its activation and listing its active inputs.
 */
module CppnReport {
  import opened CppSemantics
  import opened NetworkCommon
  import opened CppnConfig
  import opened CppnEval

  /** The function name the report gives a selector, by the same C++ `% 5` as applyFunction. */
  function FunctionName(geneValue: int): (name: string)
    ensures name == "cosinus" <==> geneValue % 5 == 0
    ensures name == "sinus" <==> geneValue >= 0 && geneValue % 5 == 1
    ensures name == "tangens" <==> geneValue >= 0 && geneValue % 5 == 2
    ensures name == "identity" <==> geneValue >= 0 && geneValue % 5 == 3
    ensures name == "sigmoid" <==> geneValue >= 0 && geneValue % 5 == 4
    ensures name == "<unknown error>" <==> geneValue < 0 && geneValue % 5 != 0
  {
    RemMatchesEuclidean(geneValue, 5);
    match Rem(geneValue, 5)
    case 0 => "cosinus"
    case 1 => "sinus"
    case 2 => "tangens"
    case 3 => "identity"
    case 4 => "sigmoid"
    case _ => "<unknown error>"
  }

  /** The report names what the evaluation applies: the two switches agree case by case. */
  lemma FunctionNameMatchesDispatch(num: Numerics, value: real, geneValue: int)
    ensures FunctionName(geneValue) == "cosinus" ==> ApplyFunction(num, value, geneValue) == num.cos(value)
    ensures FunctionName(geneValue) == "sinus" ==> ApplyFunction(num, value, geneValue) == num.sin(value)
    ensures FunctionName(geneValue) == "tangens" ==> ApplyFunction(num, value, geneValue) == num.tan(value)
    ensures FunctionName(geneValue) == "sigmoid" ==> ApplyFunction(num, value, geneValue) == num.sigmoid(value)
    ensures FunctionName(geneValue) in {"identity", "<unknown error>"} ==> ApplyFunction(num, value, geneValue) == value
  {
  }

  /** QString("input %1").arg(k) for the four fixed inputs. */
  function InputKey(k: int): (key: string)
    requires 0 <= k <= 3
    ensures |key| == 7 && key != "function"
  {
    "input " + [(48 + k) as char]
  }

  lemma InputKeyInjective(k1: int, k2: int)
    requires 0 <= k1 <= 3 && 0 <= k2 <= 3
    ensures InputKey(k1) == InputKey(k2) <==> k1 == k2
  {
    if InputKey(k1) == InputKey(k2) {
      assert InputKey(k1)[6] == InputKey(k2)[6];
    }
  }

  /** The keys of the enabled fixed inputs among inputs 0..n-1. */
  function EnabledInputKeys(seg: seq<int>, n: nat): (keys: set<string>)
    requires n <= 4 && 2 * n < |seg|
    ensures "function" !in keys
    ensures forall k :: 0 <= k < n ==> (InputKey(k) in keys <==> Enabled(seg[2 * k + 1]))
    ensures forall k :: n <= k <= 3 ==> InputKey(k) !in keys
    ensures forall key :: key in keys ==> exists k :: 0 <= k < n && key == InputKey(k)
  {
    if n == 0 then {}
    else
      var keys := EnabledInputKeys(seg, n - 1);
      forall k | 0 <= k <= 3 ensures InputKey(k) == InputKey(n - 1) <==> k == n - 1 {
        InputKeyInjective(k, n - 1);
      }
      if Enabled(seg[2 * n - 1]) then keys + {InputKey(n - 1)} else keys
  }

  /** The config map of a record after the fixed inputs 0..n-1 have been visited. */
  function InputConfig(weight: int -> real, seg: seq<int>, n: nat): map<string, ConfigValue>
    requires n <= 4 && 2 * n < |seg|
  {
    if n == 0 then map["function" := Text(FunctionName(seg[0]))]
    else
      var m := InputConfig(weight, seg, n - 1);
      if Enabled(seg[2 * n - 1]) then m[InputKey(n - 1) := Number(weight(seg[2 * n]))] else m
  }

  /** The config map names the function and exactly the enabled inputs among 0..n-1, with their weights. */
  lemma {:induction false} InputConfigContents(weight: int -> real, seg: seq<int>, n: nat)
    requires n <= 4 && 2 * n < |seg|
    ensures InputConfig(weight, seg, n).Keys == {"function"} + EnabledInputKeys(seg, n)
    ensures InputConfig(weight, seg, n)["function"] == Text(FunctionName(seg[0]))
    ensures forall k :: 0 <= k < n && Enabled(seg[2 * k + 1]) ==>
      InputConfig(weight, seg, n)[InputKey(k)] == Number(weight(seg[2 * k + 2]))
  {
    if n > 0 {
      InputConfigContents(weight, seg, n - 1);
      forall k | 0 <= k < n - 1 ensures InputKey(k) != InputKey(n - 1) {
        InputKeyInjective(k, n - 1);
      }
    }
  }

  /** A neuron whose four fixed inputs are all disabled reports its function name and nothing else. */
  lemma DisabledInputsLeaveOnlyFunction(weight: int -> real, seg: seq<int>)
    requires 8 < |seg|
    requires forall k :: 0 <= k <= 3 ==> !Enabled(seg[2 * k + 1])
    ensures InputConfig(weight, seg, 4) == map["function" := Text(FunctionName(seg[0]))]
  {
    InputConfigContents(weight, seg, 4);
    assert EnabledInputKeys(seg, 4) == {};
  }

  /** The connections of a record after the links from neurons 0..n-1 have been visited. */
  function ConnectionMap(weight: int -> real, seg: seq<int>, n: nat): map<int, real>
    requires 2 * n + 8 < |seg|
  {
    if n == 0 then map[]
    else
      var m := ConnectionMap(weight, seg, n - 1);
      if Enabled(seg[2 * n + 7]) then m[n - 1 := weight(seg[2 * n + 8])] else m
  }

  /** Exactly the enabled links among neurons 0..n-1 are listed, each with its weight. */
  lemma {:induction false} ConnectionMapContents(weight: int -> real, seg: seq<int>, n: nat)
    requires 2 * n + 8 < |seg|
    ensures forall c :: c in ConnectionMap(weight, seg, n) <==> 0 <= c < n && Enabled(seg[2 * c + 9])
    ensures forall c :: c in ConnectionMap(weight, seg, n) ==> ConnectionMap(weight, seg, n)[c] == weight(seg[2 * c + 10])
  {
    if n > 0 {
      ConnectionMapContents(weight, seg, n - 1);
    }
  }

  /**
   * What the record of neuron i says: id i - 4; the function name; under
   * "input k" the weight of each enabled fixed input k; under connection key
   * c the weight of each enabled link from neuron c (input c + 4), c < i.
   */
  ghost predicate Describes(rec: NeuronRecord, weight: int -> real, seg: seq<int>, i: nat)
    requires 2 * i + 9 <= |seg|
  {
    && rec.id == i - 4
    && rec.config.Keys == {"function"} + EnabledInputKeys(seg, 4)
    && rec.config["function"] == Text(FunctionName(seg[0]))
    && (forall k :: 0 <= k <= 3 && Enabled(seg[2 * k + 1]) ==> rec.config[InputKey(k)] == Number(weight(seg[2 * k + 2])))
    && (forall c :: c in rec.connections <==> 0 <= c < i && Enabled(seg[2 * c + 9]))
    && (forall c :: c in rec.connections ==> rec.connections[c] == weight(seg[2 * c + 10]))
  }

  /** A record built from the two maps, with id i - 4, is the record of neuron i. */
  lemma BuiltRecordDescribes(weight: int -> real, seg: seq<int>, i: nat)
    requires 2 * i + 9 <= |seg|
    ensures Describes(NeuronRecord(i - 4, InputConfig(weight, seg, 4), ConnectionMap(weight, seg, i)), weight, seg, i)
  {
    InputConfigContents(weight, seg, 4);
    ConnectionMapContents(weight, seg, i);
  }

  /**
   * The report lists exactly the inputs the evaluation uses: unit vectors
   * that agree on every input the record names give the neuron the same value.
   */
  lemma RecordListsEveryContributingInput(num: Numerics, rec: NeuronRecord, seg: seq<int>, i: nat, net1: seq<real>, net2: seq<real>)
    requires 2 * i + 9 <= |seg| && |net1| == i + 4 && |net2| == i + 4
    requires Describes(rec, num.weight, seg, i)
    requires forall k :: 0 <= k <= 3 && InputKey(k) in rec.config ==> net1[k] == net2[k]
    requires forall c :: c in rec.connections ==> net1[c + 4] == net2[c + 4]
    ensures NeuronValue(num, seg, net1) == NeuronValue(num, seg, net2)
  {
    forall j | 0 <= j < i + 4 && Enabled(seg[2 * j + 1])
      ensures net1[j] == net2[j]
    {
      if j <= 3 {
        assert InputKey(j) in EnabledInputKeys(seg, 4);
      } else {
        assert 2 * (j - 4) + 9 == 2 * j + 1;
        assert (j - 4) in rec.connections;
      }
    }
    SumIgnoresDisabledInputs(num.weight, seg, net1, net2, i + 4);
  }
}
