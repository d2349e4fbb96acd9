/**
 * What a conversion followed by the conversion back preserves. The lemmas
 * are about the spec-level compositions ThroughV1 and ThroughV1Beta1;
 * ConvertFromThenTo connects ThroughV1 to the two methods on objects.
 */
module RoundTrip {
  import opened Wrappers
  import opened Kube
  import V1Beta1
  import V1

  /** A v1beta1 spec with the given annotations, converted to v1 and back into `betaTarget`. */
  function ThroughV1(b: V1Beta1.NodePoolSpec, annotations: map<string, string>, defaults: seq<V1.GroupVersionKind>,
                     v1Target: V1.NodePoolSpec, betaTarget: V1Beta1.NodePoolSpec): V1.Filled<V1Beta1.NodePoolSpec>
    requires |defaults| > 0
  {
    var (spec, kubeletAnnotation) := V1.SpecFromV1Beta1(b, defaults, v1Target);
    var stored := V1.AnnotationsFromV1Beta1(annotations, kubeletAnnotation, b.template.spec.nodeClassRef);
    V1.SpecToV1Beta1(spec, V1.AnnotationValue(stored, V1.KubeletCompatibilityAnnotationKey),
                     V1.AnnotationValue(stored, V1.NodeClassReferenceAnnotationKey), betaTarget)
  }

  /** The consolidation settings v1beta1 accepts: a wait exactly when the policy is not WhenUnderutilized. */
  predicate ConsolidationWellFormed(d: V1Beta1.Disruption)
  {
    && d.consolidationPolicy != V1.ConsolidationPolicyWhenEmptyOrUnderutilized
    && (d.consolidationPolicy == V1Beta1.ConsolidationPolicyWhenUnderutilized <==> d.consolidateAfter.None?)
  }

  /**
   * v1beta1 -> v1 -> v1beta1 on the consolidation settings: WhenUnderutilized
   * comes back with no wait, whatever wait it had; any other v1beta1 policy
   * comes back with the wait it had, an absent wait coming back as a present
   * empty one.
   */
  lemma DisruptionRoundTripV1Beta1(d: V1Beta1.Disruption, to: V1Beta1.Disruption)
    requires d.consolidationPolicy != V1.ConsolidationPolicyWhenEmptyOrUnderutilized
    ensures var r := V1.DisruptionToV1Beta1(V1.DisruptionFromV1Beta1(d), to);
      && (d.consolidationPolicy == V1Beta1.ConsolidationPolicyWhenUnderutilized ==>
            r.consolidationPolicy == d.consolidationPolicy && r.consolidateAfter == None)
      && (d.consolidationPolicy != V1Beta1.ConsolidationPolicyWhenUnderutilized ==>
            r.consolidationPolicy == d.consolidationPolicy && r.consolidateAfter == Some(d.consolidateAfter.GetOr(None)))
      && (ConsolidationWellFormed(d) ==> r == to.(consolidationPolicy := d.consolidationPolicy, consolidateAfter := d.consolidateAfter))
  {
  }

  /**
   * v1 -> v1beta1 -> v1 on the consolidation settings: WhenEmptyOrUnderutilized
   * comes back with an explicit zero wait, any other v1 policy comes back unchanged.
   */
  lemma DisruptionRoundTripV1(d: V1.Disruption, to: V1Beta1.Disruption)
    requires d.consolidationPolicy != V1Beta1.ConsolidationPolicyWhenUnderutilized
    ensures V1.DisruptionFromV1Beta1(V1.DisruptionToV1Beta1(d, to)) ==
      if d.consolidationPolicy == V1.ConsolidationPolicyWhenEmptyOrUnderutilized
      then V1.Disruption(Some(0), d.consolidationPolicy)
      else d
  {
  }

  /** Requirements survive v1beta1 -> v1 -> v1beta1 unchanged. */
  lemma RequirementsRoundTripV1Beta1(rs: seq<NodeSelectorRequirement>)
    ensures V1.RequirementsToV1Beta1(V1.RequirementsFromV1Beta1(rs)) == rs
  {
  }

  /** Requirements survive v1 -> v1beta1 -> v1 exactly when none of them has a minimum-value count. */
  lemma RequirementsRoundTripV1(rs: seq<V1.NodeSelectorRequirementWithMinValues>)
    ensures V1.RequirementsFromV1Beta1(V1.RequirementsToV1Beta1(rs)) == rs <==>
      forall i :: 0 <= i < |rs| ==> rs[i].minValues == None
  {
  }

  /** The annotations of the v1beta1 object after a round trip: the original ones, minus the conversion annotations. */
  lemma AnnotationsRoundTrip(annotations: map<string, string>, kubeletAnnotation: string, ref: V1Beta1.NodeClassReference)
    ensures V1.AnnotationsToV1Beta1(V1.AnnotationsFromV1Beta1(annotations, kubeletAnnotation, ref)) ==
            V1.AnnotationsToV1Beta1(annotations)
  {
  }

  /**
   * v1beta1 -> v1 -> v1beta1: the node class reference comes back exactly,
   * blank kind or API version included, and so do the kubelet configuration
   * when there was one, the weight, limits, expiry, template metadata, taints
   * and requirements.
   */
  lemma V1Beta1RoundTrip(b: V1Beta1.NodePoolSpec, annotations: map<string, string>, defaults: seq<V1.GroupVersionKind>,
                         v1Target: V1.NodePoolSpec, betaTarget: V1Beta1.NodePoolSpec)
    requires |defaults| > 0
    ensures var r := ThroughV1(b, annotations, defaults, v1Target, betaTarget);
      && r.err == None
      && r.value.template.spec.nodeClassRef == b.template.spec.nodeClassRef
      && r.value.template.spec.kubelet == (if b.template.spec.kubelet.Some? then b.template.spec.kubelet else betaTarget.template.spec.kubelet)
      && r.value.template.meta == b.template.meta
      && r.value.template.spec.taints == b.template.spec.taints
      && r.value.template.spec.startupTaints == b.template.spec.startupTaints
      && r.value.template.spec.requirements == b.template.spec.requirements
      && r.value.weight == b.weight && r.value.limits == b.limits
      && r.value.disruption == V1.DisruptionToV1Beta1(V1.DisruptionFromV1Beta1(b.disruption), b.disruption)
  {
  }

  /**
   * A v1beta1 spec with well-formed consolidation settings comes back exactly,
   * into a target with no kubelet configuration of its own.
   */
  lemma V1Beta1RoundTripExact(b: V1Beta1.NodePoolSpec, annotations: map<string, string>, defaults: seq<V1.GroupVersionKind>,
                              v1Target: V1.NodePoolSpec, betaTarget: V1Beta1.NodePoolSpec)
    requires |defaults| > 0
    requires ConsolidationWellFormed(b.disruption)
    requires betaTarget.template.spec.kubelet == None
    ensures ThroughV1(b, annotations, defaults, v1Target, betaTarget) == V1.Filled(b, None)
  {
    V1Beta1RoundTrip(b, annotations, defaults, v1Target, betaTarget);
    DisruptionRoundTripV1Beta1(b.disruption, b.disruption);
  }

  /** A v1 spec with the given annotations, converted to v1beta1 and back into `v1Target`. */
  function ThroughV1Beta1(x: V1.NodePoolSpec, annotations: map<string, string>, defaults: seq<V1.GroupVersionKind>,
                          betaTarget: V1Beta1.NodePoolSpec, v1Target: V1.NodePoolSpec): V1.NodePoolSpec
    requires |defaults| > 0
  {
    var beta := V1.SpecToV1Beta1(x, V1.AnnotationValue(annotations, V1.KubeletCompatibilityAnnotationKey),
                                 V1.AnnotationValue(annotations, V1.NodeClassReferenceAnnotationKey), betaTarget);
    V1.SpecFromV1Beta1(beta.value, defaults, v1Target).0
  }

  /**
   * v1 -> v1beta1 -> v1: weight, limits, expiry, template metadata and taints
   * come back; requirements come back when none has a minimum-value count;
   * the grace period is whatever the v1 target held. Without a reference
   * annotation the reference keeps its name and kind and takes the default
   * group; with a decodable one, the v1 reference is ignored and the one that
   * comes back is the annotated reference, defaulted; with a malformed one,
   * it is the empty reference, defaulted.
   */
  lemma V1RoundTrip(x: V1.NodePoolSpec, annotations: map<string, string>, defaults: seq<V1.GroupVersionKind>,
                    betaTarget: V1Beta1.NodePoolSpec, v1Target: V1.NodePoolSpec)
    requires |defaults| > 0
    ensures var r := ThroughV1Beta1(x, annotations, defaults, betaTarget, v1Target);
      && r.weight == x.weight && r.limits == x.limits
      && r.template.meta == x.template.meta
      && r.template.spec.taints == x.template.spec.taints
      && r.template.spec.startupTaints == x.template.spec.startupTaints
      && r.template.spec.expireAfter == x.template.spec.expireAfter
      && r.template.spec.terminationGracePeriod == v1Target.template.spec.terminationGracePeriod
      && (r.template.spec.requirements == x.template.spec.requirements <==>
            forall i :: 0 <= i < |x.template.spec.requirements| ==> x.template.spec.requirements[i].minValues == None)
      && r.disruption == V1.DisruptionFromV1Beta1(V1.DisruptionToV1Beta1(x.disruption, betaTarget.disruption))
      && (V1.AnnotationValue(annotations, V1.NodeClassReferenceAnnotationKey) == "" ==>
            r.template.spec.nodeClassRef ==
              V1.NodeClassReference(
                if x.template.spec.nodeClassRef.kind == "" then defaults[0].kind else x.template.spec.nodeClassRef.kind,
                x.template.spec.nodeClassRef.name,
                defaults[0].group))
      && (var blob := V1.AnnotationValue(annotations, V1.NodeClassReferenceAnnotationKey);
          blob != "" ==>
            r.template.spec.nodeClassRef ==
              V1.NodeClassRefFromV1Beta1(V1Beta1.DecodeNodeClassRef(blob).GetOr(V1Beta1.NodeClassReference("", "", "")), defaults[0]))
  {
  }

  /**
   * ConvertFrom followed by ConvertTo on objects: a v1beta1 NodePool with
   * well-formed consolidation settings comes back with its spec unchanged and
   * its annotations minus the conversion keys, into a target with no kubelet
   * configuration of its own.
   */
  method ConvertFromThenTo(b: V1Beta1.NodePool, x: V1.NodePool, t: V1Beta1.NodePool, defaults: seq<V1.GroupVersionKind>)
    returns (err: Option<V1.ConversionError>)
    requires |defaults| > 0
    requires b != t
    requires ConsolidationWellFormed(b.spec.disruption)
    requires t.spec.template.spec.kubelet == None
    modifies x, t
    ensures err == None
    ensures t.spec == b.spec
    ensures t.meta == b.meta.(annotations := V1.AnnotationsToV1Beta1(b.meta.annotations))
    ensures t.status == b.status
  {
    ghost var v1Target, betaTarget := x.spec, t.spec;
    x.ConvertFrom(b, defaults);
    err := x.ConvertTo(t);
    V1Beta1RoundTripExact(b.spec, b.meta.annotations, defaults, v1Target, betaTarget);
    var (_, kubeletAnnotation) := V1.SpecFromV1Beta1(b.spec, defaults, v1Target);
    AnnotationsRoundTrip(b.meta.annotations, kubeletAnnotation, b.spec.template.spec.nodeClassRef);
  }
}
