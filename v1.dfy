/**
 * The v1 NodePool schema and its conversion to and from v1beta1.
 *
 * Each `...ToV1Beta1` / `...FromV1Beta1` function takes the source part and
 * the target part as it was before, and gives the target part as the
 * conversion leaves it: a field the conversion does not write keeps its old
 * value. The two entry points are methods of the v1 NodePool class that fill
 * an already-allocated target object.
 */
module V1 {
  import opened Wrappers
  import opened Kube
  import V1Beta1

  const ConsolidationPolicyWhenEmptyOrUnderutilized: string := "WhenEmptyOrUnderutilized"

  /** Annotation carrying the v1beta1 kubelet configuration, which v1 has no field for. */
  const KubeletCompatibilityAnnotationKey: string := "compatibility.karpenter.sh/v1beta1-kubelet-conversion"
  /** Annotation carrying the v1beta1 node class reference exactly as it was written. */
  const NodeClassReferenceAnnotationKey: string := "compatibility.karpenter.sh/v1beta1-nodeclass-reference"

  /** A reference to the cloud-provider node class; v1 keeps only the group of the API version. */
  datatype NodeClassReference = NodeClassReference(kind: string, name: string, group: string)

  datatype NodeSelectorRequirementWithMinValues =
    NodeSelectorRequirementWithMinValues(requirement: NodeSelectorRequirement, minValues: Option<int>)

  datatype NodeClaimTemplateSpec = NodeClaimTemplateSpec(
    taints: seq<Taint>,
    startupTaints: seq<Taint>,
    requirements: seq<NodeSelectorRequirementWithMinValues>,
    nodeClassRef: NodeClassReference,
    expireAfter: NillableDuration,
    terminationGracePeriod: Option<int>)

  datatype NodeClaimTemplate = NodeClaimTemplate(meta: TemplateMeta, spec: NodeClaimTemplateSpec)

  datatype Disruption = Disruption(consolidateAfter: NillableDuration, consolidationPolicy: string)

  datatype NodePoolSpec = NodePoolSpec(
    template: NodeClaimTemplate,
    disruption: Disruption,
    limits: ResourceList,
    weight: Option<int>)

  datatype NodePoolStatus = NodePoolStatus(resources: ResourceList)

  /** An entry of the configured node classes; the first one supplies defaults. */
  datatype GroupVersionKind = GroupVersionKind(group: string, version: string, kind: string)

  /** Why a conversion to v1beta1 failed: an annotation that does not decode. */
  datatype ConversionError = MalformedNodeClassRefAnnotation | MalformedKubeletAnnotation

  /** A target as a converter left it, and the error that stopped the converter, if any. */
  datatype Filled<T> = Filled(value: T, err: Option<ConversionError>)

  /** Reading a Go map: the value under `key`, or the empty string when the key is absent. */
  function AnnotationValue(annotations: map<string, string>, key: string): (v: string)
    ensures v != "" ==> key in annotations && annotations[key] == v
    ensures v == "" <==> key !in annotations || annotations[key] == ""
  {
    if key in annotations then annotations[key] else ""
  }

  // ---------------------------------------------------------------------
  // Consolidation policy

  /** v1 policy and consolidateAfter written onto a v1beta1 disruption. */
  function DisruptionToV1Beta1(src: Disruption, to: V1Beta1.Disruption): (r: V1Beta1.Disruption)
    ensures r.expireAfter == to.expireAfter
    ensures src.consolidationPolicy == ConsolidationPolicyWhenEmptyOrUnderutilized ==>
      r.consolidationPolicy == V1Beta1.ConsolidationPolicyWhenUnderutilized && r.consolidateAfter == None
    ensures src.consolidationPolicy != ConsolidationPolicyWhenEmptyOrUnderutilized ==>
      r.consolidationPolicy == src.consolidationPolicy && r.consolidateAfter == Some(src.consolidateAfter)
  {
    var underutilized := src.consolidationPolicy == ConsolidationPolicyWhenEmptyOrUnderutilized;
    to.(consolidationPolicy := if underutilized then V1Beta1.ConsolidationPolicyWhenUnderutilized else src.consolidationPolicy,
        consolidateAfter := if underutilized then None else Some(src.consolidateAfter))
  }

  /** v1beta1 policy and consolidateAfter as the v1 disruption. */
  function DisruptionFromV1Beta1(src: V1Beta1.Disruption): (r: Disruption)
    ensures src.consolidationPolicy == V1Beta1.ConsolidationPolicyWhenUnderutilized ==>
      r.consolidationPolicy == ConsolidationPolicyWhenEmptyOrUnderutilized && r.consolidateAfter == Some(0)
    ensures src.consolidationPolicy != V1Beta1.ConsolidationPolicyWhenUnderutilized ==>
      r.consolidationPolicy == src.consolidationPolicy &&
      r.consolidateAfter == (if src.consolidateAfter.Some? then src.consolidateAfter.value else None)
  {
    var underutilized := src.consolidationPolicy == V1Beta1.ConsolidationPolicyWhenUnderutilized;
    Disruption(
      consolidateAfter := if underutilized then Some(0) else src.consolidateAfter.GetOr(None),
      consolidationPolicy := if underutilized then ConsolidationPolicyWhenEmptyOrUnderutilized else src.consolidationPolicy)
  }

  // ---------------------------------------------------------------------
  // Requirements

  /** Requirements without their minimum-value counts. */
  function RequirementsToV1Beta1(rs: seq<NodeSelectorRequirementWithMinValues>): (r: seq<NodeSelectorRequirement>)
    ensures |r| == |rs|
    ensures forall i :: 0 <= i < |rs| ==> r[i] == rs[i].requirement
  {
    seq(|rs|, i requires 0 <= i < |rs| => rs[i].requirement)
  }

  /** Requirements with no minimum-value count. */
  function RequirementsFromV1Beta1(rs: seq<NodeSelectorRequirement>): (r: seq<NodeSelectorRequirementWithMinValues>)
    ensures |r| == |rs|
    ensures forall i :: 0 <= i < |rs| ==> r[i].requirement == rs[i] && r[i].minValues == None
  {
    seq(|rs|, i requires 0 <= i < |rs| => NodeSelectorRequirementWithMinValues(rs[i], None))
  }

  // ---------------------------------------------------------------------
  // Node class reference

  /** The part of `apiVersion` before its first slash; all of it when there is no slash. */
  function GroupOf(apiVersion: string): (g: string)
    ensures g <= apiVersion
    ensures '/' !in g
    ensures |g| < |apiVersion| ==> apiVersion[|g|] == '/'
  {
    if apiVersion == [] || apiVersion[0] == '/' then []
    else [apiVersion[0]] + GroupOf(apiVersion[1..])
  }

  /** The v1 reference for a v1beta1 one, a blank kind or API version taken from the default node class. */
  function NodeClassRefFromV1Beta1(ref: V1Beta1.NodeClassReference, defaultClass: GroupVersionKind): (r: NodeClassReference)
    ensures r.name == ref.name
    ensures r.kind == if ref.kind == "" then defaultClass.kind else ref.kind
    ensures ref.apiVersion == "" ==> r.group == defaultClass.group
    ensures ref.apiVersion != "" ==>
      r.group <= ref.apiVersion && '/' !in r.group &&
      (|r.group| < |ref.apiVersion| ==> ref.apiVersion[|r.group|] == '/')
  {
    NodeClassReference(
      kind := if ref.kind == "" then defaultClass.kind else ref.kind,
      name := ref.name,
      group := if ref.apiVersion == "" then defaultClass.group else GroupOf(ref.apiVersion))
  }

  // ---------------------------------------------------------------------
  // NodeClaim template

  /**
   * The template converted to v1beta1. The node class reference is the
   * decoded reference annotation when there is one, else the v1 name and
   * kind with no API version; the kubelet configuration is written only
   * when the kubelet annotation is non-empty. A reference annotation that
   * does not decode stops the conversion before the kubelet is looked at.
   */
  function TemplateToV1Beta1(src: NodeClaimTemplate, kubeletAnnotation: string, nodeClassRefAnnotation: string,
                             to: V1Beta1.NodeClaimTemplate): (r: Filled<V1Beta1.NodeClaimTemplate>)
    ensures r.value.meta == src.meta
    ensures r.value.spec.taints == src.spec.taints && r.value.spec.startupTaints == src.spec.startupTaints
    ensures r.value.spec.requirements == RequirementsToV1Beta1(src.spec.requirements)
    ensures r.err == Some(MalformedNodeClassRefAnnotation) <==>
      nodeClassRefAnnotation != "" && V1Beta1.DecodeNodeClassRef(nodeClassRefAnnotation).None?
    ensures r.err == Some(MalformedKubeletAnnotation) <==>
      (nodeClassRefAnnotation == "" || V1Beta1.DecodeNodeClassRef(nodeClassRefAnnotation).Some?) &&
      kubeletAnnotation != "" && V1Beta1.DecodeKubelet(kubeletAnnotation).None?
    ensures r.err == Some(MalformedNodeClassRefAnnotation) ==>
      r.value.spec.nodeClassRef == V1Beta1.NodeClassReference("", "", "") && r.value.spec.kubelet == to.spec.kubelet
    ensures r.err != Some(MalformedNodeClassRefAnnotation) ==>
      if nodeClassRefAnnotation != "" then Some(r.value.spec.nodeClassRef) == V1Beta1.DecodeNodeClassRef(nodeClassRefAnnotation)
      else r.value.spec.nodeClassRef == V1Beta1.NodeClassReference(src.spec.nodeClassRef.kind, src.spec.nodeClassRef.name, "")
    ensures r.err != Some(MalformedNodeClassRefAnnotation) ==>
      if kubeletAnnotation != "" && r.err == None then r.value.spec.kubelet == V1Beta1.DecodeKubelet(kubeletAnnotation)
      else r.value.spec.kubelet == to.spec.kubelet
  {
    var copied := to.(
      meta := src.meta,
      spec := to.spec.(
        taints := src.spec.taints,
        startupTaints := src.spec.startupTaints,
        requirements := RequirementsToV1Beta1(src.spec.requirements),
        nodeClassRef := V1Beta1.NodeClassReference("", "", "")));
    var decodedRef := V1Beta1.DecodeNodeClassRef(nodeClassRefAnnotation);
    if nodeClassRefAnnotation != "" && decodedRef.None? then
      Filled(copied, Some(MalformedNodeClassRefAnnotation))
    else
      var ref :=
        if nodeClassRefAnnotation != "" then decodedRef.value
        else V1Beta1.NodeClassReference(kind := src.spec.nodeClassRef.kind, name := src.spec.nodeClassRef.name, apiVersion := "");
      var withRef := copied.(spec := copied.spec.(nodeClassRef := ref));
      if kubeletAnnotation == "" then Filled(withRef, None)
      else match V1Beta1.DecodeKubelet(kubeletAnnotation)
        case None => Filled(withRef, Some(MalformedKubeletAnnotation))
        case Some(kubelet) => Filled(withRef.(spec := withRef.spec.(kubelet := Some(kubelet))), None)
  }

  /**
   * The template converted to v1, and the kubelet annotation to store
   * (empty when the v1beta1 template has no kubelet configuration).
   * Its expiry and grace period are not written here.
   */
  function TemplateFromV1Beta1(src: V1Beta1.NodeClaimTemplate, defaults: seq<GroupVersionKind>, to: NodeClaimTemplate)
    : (r: (NodeClaimTemplate, string))
    requires |defaults| > 0
    ensures r.0.meta == src.meta
    ensures r.0.spec.taints == src.spec.taints && r.0.spec.startupTaints == src.spec.startupTaints
    ensures r.0.spec.requirements == RequirementsFromV1Beta1(src.spec.requirements)
    ensures r.0.spec.nodeClassRef == NodeClassRefFromV1Beta1(src.spec.nodeClassRef, defaults[0])
    ensures r.0.spec.expireAfter == to.spec.expireAfter
    ensures r.0.spec.terminationGracePeriod == to.spec.terminationGracePeriod
    ensures r.1 == "" <==> src.spec.kubelet.None?
    ensures src.spec.kubelet.Some? ==> V1Beta1.DecodeKubelet(r.1) == src.spec.kubelet
  {
    var template := to.(
      meta := src.meta,
      spec := to.spec.(
        taints := src.spec.taints,
        startupTaints := src.spec.startupTaints,
        requirements := RequirementsFromV1Beta1(src.spec.requirements),
        nodeClassRef := NodeClassRefFromV1Beta1(src.spec.nodeClassRef, defaults[0])));
    var kubeletAnnotation := match src.spec.kubelet
      case Some(kubelet) => V1Beta1.EncodeKubelet(kubelet)
      case None => "";
    if src.spec.kubelet.Some? then V1Beta1.DecodeEncodeKubelet(src.spec.kubelet.value); (template, kubeletAnnotation)
    else (template, kubeletAnnotation)
  }

  // ---------------------------------------------------------------------
  // NodePool spec

  /** The spec converted to v1beta1; the template's expiry moves to the disruption block. */
  function SpecToV1Beta1(src: NodePoolSpec, kubeletAnnotation: string, nodeClassRefAnnotation: string,
                         to: V1Beta1.NodePoolSpec): (r: Filled<V1Beta1.NodePoolSpec>)
    ensures r.value.weight == src.weight && r.value.limits == src.limits
    ensures r.value.disruption.expireAfter == src.template.spec.expireAfter
    ensures r.value.disruption == DisruptionToV1Beta1(src.disruption, to.disruption).(expireAfter := src.template.spec.expireAfter)
    ensures var t := TemplateToV1Beta1(src.template, kubeletAnnotation, nodeClassRefAnnotation, to.template);
      r.value.template == t.value && r.err == t.err
  {
    var disruption := DisruptionToV1Beta1(src.disruption, to.disruption).(expireAfter := src.template.spec.expireAfter);
    var template := TemplateToV1Beta1(src.template, kubeletAnnotation, nodeClassRefAnnotation, to.template);
    Filled(to.(weight := src.weight, limits := src.limits, disruption := disruption, template := template.value), template.err)
  }

  /** The spec converted to v1, and the kubelet annotation to store; the v1beta1 expiry moves into the template. */
  function SpecFromV1Beta1(src: V1Beta1.NodePoolSpec, defaults: seq<GroupVersionKind>, to: NodePoolSpec)
    : (r: (NodePoolSpec, string))
    requires |defaults| > 0
    ensures r.0.weight == src.weight && r.0.limits == src.limits
    ensures r.0.disruption == DisruptionFromV1Beta1(src.disruption)
    ensures r.0.template.spec.expireAfter == src.disruption.expireAfter
    ensures var t := TemplateFromV1Beta1(src.template, defaults, to.template);
      r.0.template == t.0.(spec := t.0.spec.(expireAfter := src.disruption.expireAfter)) && r.1 == t.1
  {
    var expiring := to.template.(spec := to.template.spec.(expireAfter := src.disruption.expireAfter));
    var (template, kubeletAnnotation) := TemplateFromV1Beta1(src.template, defaults, expiring);
    (to.(weight := src.weight, limits := src.limits, template := template, disruption := DisruptionFromV1Beta1(src.disruption)),
     kubeletAnnotation)
  }

  // ---------------------------------------------------------------------
  // Annotations

  /** The annotations a v1beta1 object keeps: all but the two conversion annotations. */
  function AnnotationsToV1Beta1(annotations: map<string, string>): (r: map<string, string>)
    ensures KubeletCompatibilityAnnotationKey !in r && NodeClassReferenceAnnotationKey !in r
    ensures forall k :: k in r <==>
      k in annotations && k != KubeletCompatibilityAnnotationKey && k != NodeClassReferenceAnnotationKey
    ensures forall k :: k in r ==> r[k] == annotations[k]
  {
    annotations - {KubeletCompatibilityAnnotationKey, NodeClassReferenceAnnotationKey}
  }

  /**
   * The annotations of a v1 object converted from v1beta1: the kubelet
   * annotation set to `kubeletAnnotation`, or removed when that is empty, and
   * the reference annotation always set to the encoding of `ref`.
   */
  function AnnotationsFromV1Beta1(annotations: map<string, string>, kubeletAnnotation: string,
                                  ref: V1Beta1.NodeClassReference): (r: map<string, string>)
    ensures NodeClassReferenceAnnotationKey in r && V1Beta1.DecodeNodeClassRef(r[NodeClassReferenceAnnotationKey]) == Some(ref)
    ensures KubeletCompatibilityAnnotationKey in r <==> kubeletAnnotation != ""
    ensures KubeletCompatibilityAnnotationKey in r ==> r[KubeletCompatibilityAnnotationKey] == kubeletAnnotation
    ensures forall k :: k != KubeletCompatibilityAnnotationKey && k != NodeClassReferenceAnnotationKey ==>
      (k in r <==> k in annotations) && (k in r ==> r[k] == annotations[k])
  {
    var withKubelet :=
      if kubeletAnnotation == "" then annotations - {KubeletCompatibilityAnnotationKey}
      else annotations[KubeletCompatibilityAnnotationKey := kubeletAnnotation];
    V1Beta1.DecodeEncodeNodeClassRef(ref);
    withKubelet[NodeClassReferenceAnnotationKey := V1Beta1.EncodeNodeClassRef(ref)]
  }

  // ---------------------------------------------------------------------
  // Entry points

  /** A v1 NodePool object. */
  class NodePool {
    var meta: ObjectMeta
    var spec: NodePoolSpec
    var status: NodePoolStatus

    /**
     * Fills `to` with this NodePool in the v1beta1 schema. On success the
     * two conversion annotations are removed from the copied metadata; on
     * error `to` is left as far as the conversion got.
     */
    method ConvertTo(to: V1Beta1.NodePool) returns (err: Option<ConversionError>)
      modifies to
      ensures var f := SpecToV1Beta1(spec, AnnotationValue(meta.annotations, KubeletCompatibilityAnnotationKey),
                                     AnnotationValue(meta.annotations, NodeClassReferenceAnnotationKey), old(to.spec));
        to.spec == f.value && err == f.err
      ensures to.status == V1Beta1.NodePoolStatus(status.resources)
      ensures err == None ==> to.meta == meta.(annotations := AnnotationsToV1Beta1(meta.annotations))
      ensures err != None ==> to.meta == meta
    {
      to.meta := meta;
      to.status := to.status.(resources := status.resources);
      var converted := SpecToV1Beta1(spec, AnnotationValue(meta.annotations, KubeletCompatibilityAnnotationKey),
                                     AnnotationValue(meta.annotations, NodeClassReferenceAnnotationKey), to.spec);
      to.spec := converted.value;
      if converted.err != None {
        return converted.err;
      }
      to.meta := to.meta.(annotations := AnnotationsToV1Beta1(to.meta.annotations));
      return None;
    }

    /**
     * Fills this NodePool from the v1beta1 object `from`, taking defaults
     * for a blank node class kind or API version from `defaults[0]`.
     */
    method ConvertFrom(from: V1Beta1.NodePool, defaults: seq<GroupVersionKind>)
      requires |defaults| > 0
      modifies this
      ensures var c := SpecFromV1Beta1(from.spec, defaults, old(spec));
        && spec == c.0
        && meta == from.meta.(annotations := AnnotationsFromV1Beta1(from.meta.annotations, c.1, from.spec.template.spec.nodeClassRef))
      ensures status == NodePoolStatus(from.status.resources)
    {
      meta := from.meta;
      status := status.(resources := from.status.resources);
      var (converted, kubeletAnnotation) := SpecFromV1Beta1(from.spec, defaults, spec);
      spec := converted;
      meta := meta.(annotations := AnnotationsFromV1Beta1(meta.annotations, kubeletAnnotation, from.spec.template.spec.nodeClassRef));
    }
  }
}
