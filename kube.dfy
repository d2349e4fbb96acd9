/**
 * Kubernetes and Karpenter shapes that both API versions share and that the
 * conversion copies without looking inside.
 */
module Kube {
  import opened Wrappers

  /** The object metadata of a NodePool (metav1.ObjectMeta, reduced to the parts the model names). */
  datatype ObjectMeta = ObjectMeta(
    name: string,
    namespace: string,
    labels: map<string, string>,
    annotations: map<string, string>)

  /** The metadata of a NodeClaim template: the same shape in both versions. */
  datatype TemplateMeta = TemplateMeta(labels: map<string, string>, annotations: map<string, string>)

  /** A node taint, copied verbatim. */
  datatype Taint = Taint(key: string, value: string, effect: string)

  /** A node selector requirement of the core Kubernetes API. */
  datatype NodeSelectorRequirement = NodeSelectorRequirement(key: string, operator: string, values: seq<string>)

  /** Resource quantities, kept opaque as integer amounts per resource name. */
  type ResourceList = map<string, int>

  /** Karpenter's NillableDuration: a duration in nanoseconds, or none. */
  type NillableDuration = Option<int>
}
