/**
 * The legacy v1beta1 NodePool schema, and the JSON form of the two v1beta1
 * structures that the v1 schema carries in annotations.
 */
module V1Beta1 {
  import opened Wrappers
  import opened Kube
  import Codec

  const ConsolidationPolicyWhenUnderutilized: string := "WhenUnderutilized"

  /** A reference to the cloud-provider node class; group and version together in `apiVersion`. */
  datatype NodeClassReference = NodeClassReference(kind: string, name: string, apiVersion: string)

  /**
   * The kubelet settings that v1 no longer has a field for. The conversion
   * never looks inside them, so each typed setting is kept as a name and its
   * rendered value.
   */
  datatype KubeletConfiguration = KubeletConfiguration(settings: seq<(string, string)>)

  datatype NodeClaimSpec = NodeClaimSpec(
    taints: seq<Taint>,
    startupTaints: seq<Taint>,
    requirements: seq<NodeSelectorRequirement>,
    kubelet: Option<KubeletConfiguration>,
    nodeClassRef: NodeClassReference)

  datatype NodeClaimTemplate = NodeClaimTemplate(meta: TemplateMeta, spec: NodeClaimSpec)

  /** `consolidateAfter` is an optional NillableDuration: nil, or present and possibly itself empty. */
  datatype Disruption = Disruption(
    consolidateAfter: Option<NillableDuration>,
    consolidationPolicy: string,
    expireAfter: NillableDuration)

  datatype NodePoolSpec = NodePoolSpec(
    template: NodeClaimTemplate,
    disruption: Disruption,
    limits: ResourceList,
    weight: Option<int>)

  datatype NodePoolStatus = NodePoolStatus(resources: ResourceList)

  /** A v1beta1 NodePool object, filled in place by the conversion from v1. */
  class NodePool {
    var meta: ObjectMeta
    var spec: NodePoolSpec
    var status: NodePoolStatus
  }

  /** The JSON form of a node class reference: its three fields, in declaration order. */
  function EncodeNodeClassRef(ref: NodeClassReference): (r: string)
    ensures r != []
  {
    Codec.EncodeStrings([ref.kind, ref.name, ref.apiVersion])
  }

  /** Unmarshals a reference: the blob must be an array of exactly three strings, its kind, name and API version. */
  function DecodeNodeClassRef(s: string): (r: Option<NodeClassReference>)
    ensures r.Some? ==> Codec.DecodeStrings(s) == Some([r.value.kind, r.value.name, r.value.apiVersion])
    ensures r.None? <==> Codec.DecodeStrings(s).None? || |Codec.DecodeStrings(s).value| != 3
  {
    match Codec.DecodeStrings(s)
    case Some(fields) =>
      if |fields| == 3 then
        assert fields == [fields[0], fields[1], fields[2]];
        Some(NodeClassReference(fields[0], fields[1], fields[2]))
      else None
    case None => None
  }

  lemma DecodeEncodeNodeClassRef(ref: NodeClassReference)
    ensures DecodeNodeClassRef(EncodeNodeClassRef(ref)) == Some(ref)
  {
    Codec.DecodeEncodeStrings([ref.kind, ref.name, ref.apiVersion]);
  }

  /** Each setting as two consecutive strings, name then value. */
  function Flatten(settings: seq<(string, string)>): seq<string>
  {
    if settings == [] then [] else [settings[0].0, settings[0].1] + Flatten(settings[1..])
  }

  /** Pairs consecutive strings back into settings; None for an odd count. */
  function Pairs(fields: seq<string>): (r: Option<seq<(string, string)>>)
    ensures r.None? <==> |fields| % 2 == 1
    ensures r.Some? ==> Flatten(r.value) == fields
  {
    if fields == [] then Some([])
    else if |fields| == 1 then None
    else match Pairs(fields[2..])
      case None => None
      case Some(tail) => Some([(fields[0], fields[1])] + tail)
  }

  lemma {:induction false} PairsFlatten(settings: seq<(string, string)>)
    ensures Pairs(Flatten(settings)) == Some(settings)
  {
    if settings != [] {
      var f := Flatten(settings);
      assert f[2..] == Flatten(settings[1..]);
      PairsFlatten(settings[1..]);
      assert [settings[0]] + settings[1..] == settings;
    }
  }

  /** The JSON form of a kubelet configuration. */
  function EncodeKubelet(k: KubeletConfiguration): (r: string)
    ensures r != []
  {
    Codec.EncodeStrings(Flatten(k.settings))
  }

  /** Unmarshals a kubelet configuration: the blob must be an array of an even number of strings, its settings flattened. */
  function DecodeKubelet(s: string): (r: Option<KubeletConfiguration>)
    ensures r.Some? ==> Codec.DecodeStrings(s) == Some(Flatten(r.value.settings))
    ensures r.None? <==> Codec.DecodeStrings(s).None? || |Codec.DecodeStrings(s).value| % 2 == 1
  {
    match Codec.DecodeStrings(s)
    case Some(fields) =>
      (match Pairs(fields)
       case Some(settings) => Some(KubeletConfiguration(settings))
       case None => None)
    case None => None
  }

  lemma DecodeEncodeKubelet(k: KubeletConfiguration)
    ensures DecodeKubelet(EncodeKubelet(k)) == Some(k)
  {
    Codec.DecodeEncodeStrings(Flatten(k.settings));
    PairsFlatten(k.settings);
  }

  /** Unmarshaling fails on a blob that is not such an array, and on an array of the wrong shape. */
  lemma DecodeCanFail()
    ensures DecodeNodeClassRef("x") == None && DecodeKubelet("x") == None
    ensures DecodeNodeClassRef("[]") == None && DecodeKubelet("[\"a\"]") == None
  {
  }
}
