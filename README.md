# Karpenter NodePool conversion, v1 <-> v1beta1

This project models the conversion webhook logic that translates a Karpenter
`NodePool` between the current `v1` schema and the legacy `v1beta1` schema
(`pkg/apis/v1/nodepool_conversion.go`), and proves what the conversion
preserves in each direction and over round trips.

The two schemas differ in four ways, and the model covers each:

- **Consolidation policy.** v1 `WhenEmptyOrUnderutilized` becomes v1beta1
  `WhenUnderutilized` with no `consolidateAfter`. The way back gives an
  explicit zero wait. Every other policy passes through as a string.
- **Requirements.** v1 requirements carry a `minValues` count that v1beta1
  does not have. It is dropped going to v1beta1 and left unset coming back.
- **Expiry.** `expireAfter` sits in the NodeClaim template spec in v1 and in
  the disruption block in v1beta1.
- **Node class reference and kubelet.** v1 keeps `group`; v1beta1 keeps
  `apiVersion`, and only v1beta1 has a kubelet configuration. Going to v1,
  a blank kind or API version is filled from the first configured node class,
  and two annotations store the kubelet configuration and the exact v1beta1
  reference. Going back, those annotations restore both exactly and are then
  removed from the v1beta1 object.

Layout:

- `wrappers.dfy`: `Option`.
- `kube.dfy`: the Kubernetes shapes both versions share (object metadata,
  taints, node selector requirements, resource lists, `NillableDuration`).
- `codec.dfy`: the annotation blob format. It is a JSON array of escaped,
  quoted strings, and decoding an encoded list is proved to give it back.
- `v1beta1.dfy`: the legacy types, the target class `V1Beta1.NodePool`, and
  the blob form of the node class reference and the kubelet configuration.
- `v1.dfy`: the current types, the field converters, and the class
  `V1.NodePool` with the entry points `ConvertTo` and `ConvertFrom`.
- `roundtrip.dfy`: lemmas about converting one way and then back.

Each field converter is a function of the source part and of the target part
as it was before. A field the Go code does not write keeps the target's old
value: the v1beta1 kubelet configuration when there is no kubelet
annotation, and the v1 `terminationGracePeriod`. On a decoding error
`ConvertTo` leaves the target as far as the Go code had filled it. `Filled`
carries that partial target together with the error.

## Model

| member | source | states |
|---|---|---|
| Codec.DecodeEncodeStrings | pkg/apis/v1/nodepool_conversion.go:116-121 | a blob written into an annotation decodes back to exactly what was encoded |
| V1Beta1.DecodeNodeClassRef | pkg/apis/v1/nodepool_conversion.go:80 | unmarshaling a reference succeeds exactly when the blob is an array of three strings, and the result's kind, name and API version are those three strings |
| V1Beta1.DecodeKubelet | pkg/apis/v1/nodepool_conversion.go:89 | unmarshaling a kubelet configuration succeeds exactly when the blob is an array of an even number of strings, and the result's settings flatten back to that array |
| V1Beta1.DecodeCanFail | pkg/apis/v1/nodepool_conversion.go:80-91 | unmarshaling both kinds of blob fails on text that is not an array of strings and on an array of the wrong shape, so the error paths are reachable |
| V1.AnnotationValue | pkg/apis/v1/nodepool_conversion.go:39 | Go's map read: a non-empty result is the value stored under the key, and the result is empty exactly when the key is absent or holds the empty string; `ConvertTo` reads both annotations through it |
| V1Beta1.EncodeNodeClassRef | pkg/apis/v1/nodepool_conversion.go:116 | the encoded reference is never the empty string, so the later `!= ""` test at line 79 always sees it |
| V1Beta1.DecodeEncodeNodeClassRef | pkg/apis/v1/nodepool_conversion.go:79-82 | unmarshaling the stored reference gives back the v1beta1 reference that was marshaled |
| V1Beta1.EncodeKubelet | pkg/apis/v1/nodepool_conversion.go:162-167 | the encoded kubelet configuration is never empty, so an annotation is produced exactly when a kubelet configuration exists |
| V1Beta1.DecodeEncodeKubelet | pkg/apis/v1/nodepool_conversion.go:87-94 | unmarshaling the stored kubelet annotation gives back the configuration that was marshaled |
| V1.DisruptionToV1Beta1 | pkg/apis/v1/nodepool_conversion.go:58-64 | `WhenEmptyOrUnderutilized` becomes `WhenUnderutilized` with no consolidateAfter; any other policy passes through with consolidateAfter present and equal to the v1 value; expiry is left to the caller |
| V1.DisruptionFromV1Beta1 | pkg/apis/v1/nodepool_conversion.go:134-140 | `WhenUnderutilized` becomes `WhenEmptyOrUnderutilized` with an explicit zero wait whatever the input wait; otherwise the policy passes through and the wait is the v1beta1 value, empty when that is nil |
| V1.RequirementsToV1Beta1 | pkg/apis/v1/nodepool_conversion.go:70-76 | same length and order; each element keeps key, operator and values and loses minValues |
| V1.RequirementsFromV1Beta1 | pkg/apis/v1/nodepool_conversion.go:146-154 | same length and order; each element keeps key, operator and values, with minValues unset |
| V1.GroupOf | pkg/apis/v1/nodepool_conversion.go:160 | the group is the longest prefix of the API version without a slash: it stops at the first `/`, or is the whole string when there is none |
| V1.NodeClassRefFromV1Beta1 | pkg/apis/v1/nodepool_conversion.go:156-161 | name copied; kind is the source kind unless blank, then the default kind; group is the API version up to its first `/`, or the default group when the API version is blank |
| V1.TemplateToV1Beta1 | pkg/apis/v1/nodepool_conversion.go:66-97 | metadata, taints and requirements copied; a non-empty reference annotation decides the reference exactly, else name and kind with an empty API version; the kubelet is set only from a non-empty kubelet annotation; each malformed annotation yields its own error, the reference checked first |
| V1.TemplateFromV1Beta1 | pkg/apis/v1/nodepool_conversion.go:142-170 | metadata, taints and requirements copied; reference defaulted from `defaults[0]`; expiry and grace period untouched; the kubelet annotation is empty exactly when there is no kubelet and otherwise decodes back to it |
| V1.SpecToV1Beta1 | pkg/apis/v1/nodepool_conversion.go:48-56 | weight and limits copied; the template's expireAfter becomes the disruption's; the grace period is not written; the template's error is the spec's |
| V1.SpecFromV1Beta1 | pkg/apis/v1/nodepool_conversion.go:126-132 | weight and limits copied; the disruption's expireAfter becomes the template's; the kubelet annotation comes from the template |
| V1.AnnotationsToV1Beta1 | pkg/apis/v1/nodepool_conversion.go:42-44 | neither conversion annotation is present; every other annotation is kept with its value |
| V1.AnnotationsFromV1Beta1 | pkg/apis/v1/nodepool_conversion.go:111-122 | the kubelet key is present exactly when the kubelet annotation is non-empty and then holds it; the reference key always holds a blob that decodes to the v1beta1 reference; every other key is unchanged |
| V1.NodePool.ConvertTo | pkg/apis/v1/nodepool_conversion.go:33-46 | the target gets the metadata, the status resources and the converted spec; on success the conversion annotations are stripped from its metadata; on a decoding error the error is returned and the metadata keeps them |
| V1.NodePool.ConvertFrom | pkg/apis/v1/nodepool_conversion.go:100-124 | this object gets the source metadata, the status resources and the converted spec, and its annotations are reconciled with the kubelet blob and the exact reference blob |
| RoundTrip.DisruptionRoundTripV1Beta1 | pkg/apis/v1/nodepool_conversion.go:134-140 | v1beta1 to v1 and back: `WhenUnderutilized` returns with no wait; other policies return with their wait; well-formed settings return exactly |
| RoundTrip.DisruptionRoundTripV1 | pkg/apis/v1/nodepool_conversion.go:58-64 | v1 to v1beta1 and back: `WhenEmptyOrUnderutilized` returns with a zero wait, every other v1 disruption returns unchanged |
| RoundTrip.RequirementsRoundTripV1Beta1 | pkg/apis/v1/nodepool_conversion.go:146-154 | v1beta1 requirements survive the round trip unchanged |
| RoundTrip.RequirementsRoundTripV1 | pkg/apis/v1/nodepool_conversion.go:70-76 | v1 requirements survive the round trip if and only if none has a minValues count |
| RoundTrip.AnnotationsRoundTrip | pkg/apis/v1/nodepool_conversion.go:111-122 | after v1beta1 to v1 and back, the annotations are the original ones minus the two conversion keys |
| RoundTrip.V1Beta1RoundTrip | pkg/apis/v1/nodepool_conversion.go:79-95 | v1beta1 to v1 and back never fails, and restores the node class reference exactly (blank kind or API version included), the kubelet when there was one, and weight, limits, expiry, template metadata, taints and requirements |
| RoundTrip.V1Beta1RoundTripExact | pkg/apis/v1/nodepool_conversion.go:54-64 | a v1beta1 spec with well-formed consolidation settings comes back exactly |
| RoundTrip.V1RoundTrip | pkg/apis/v1/nodepool_conversion.go:48-56 | v1 to v1beta1 and back restores weight, limits, expiry, template metadata and taints; requirements exactly when there are no minValues; the grace period is not carried; without a reference annotation the reference keeps name and kind and the group becomes the default group; with a reference annotation the v1 reference is ignored and the annotated one (or the empty one, when it does not decode) comes back defaulted |
| RoundTrip.ConvertFromThenTo | pkg/apis/v1/nodepool_conversion.go:100-124 | on objects, `ConvertFrom` then `ConvertTo` succeeds and gives back a v1beta1 NodePool with well-formed consolidation settings: the same spec and status, and the same metadata minus the conversion annotations |

Three properties of v1 to v1beta1 to v1 are not exact as the code is written.
`RoundTrip.DisruptionRoundTripV1` shows that a `WhenEmptyOrUnderutilized`
wait comes back as zero. `RoundTrip.V1RoundTrip` shows that, without a
reference annotation, the node class group comes back as the default group.
It also shows that a reference annotation overrides the v1 reference: when
the annotation agrees with the v1 reference this is the exact restoration the
annotation exists for, but a stale annotation silently replaces a v1
reference edited since. An exact v1 round trip does not hold in these cases.

`V1Beta1RoundTripExact` needs three conditions. The v1beta1 policy must not be
the v1-only `WhenEmptyOrUnderutilized`, which v1beta1's enum excludes. The
v1beta1 `WhenUnderutilized` policy must come with no wait, and any other
policy with one. The v1beta1 target must also hold no kubelet configuration
of its own. Otherwise a `WhenEmptyOrUnderutilized` policy comes back as
`WhenUnderutilized` with no wait, a wait given with `WhenUnderutilized` is
lost, an absent wait comes back present but empty, and a stale kubelet in the
target survives.

## Left out

- JSON encoding: `encoding/json` is modelled as a JSON array of escaped strings. Object keys, numbers and the real field layout are not modelled. Only the properties the conversion relies on are proved: decode after encode is the identity, encodings are never empty, and decoding can fail (`V1Beta1.DecodeCanFail`).
- json.Unmarshal partial fills: when the reference blob does not decode, the model leaves the freshly allocated empty reference. `encoding/json` can partly fill it on a type error.
- KubeletConfiguration: its typed fields are kept as an opaque list of named settings, because the conversion only encodes and decodes it.
- ConvertFrom errors: `json.Marshal` cannot fail on these types, so the model's `ConvertFrom` has no error result.
- Node class registry: the context lookup of configured node classes is an explicit non-empty `defaults` parameter. Go indexes entry 0 unconditionally, which is why the model requires a non-empty list.
- Nil node class references: Go dereferences the v1beta1 `NodeClassRef` without a nil check (lines 158-160), and the v1 one when there is no reference annotation (lines 84-85), and would panic on nil. The model's references are always present.
- Interface casts: the `apis.Convertible` type assertions are replaced by concrete parameter types.
- Map aliasing: annotations are values. In Go, the deletes at lines 43-44 act on the map the target shares with the source object, so they also strip the keys from the v1 source. The model does not reproduce this.
- Kubernetes types: durations are optional integers with no arithmetic. Resource quantities, taints and object metadata other than annotations are copied as opaque values. Struct fields that the conversion file never mentions are not in the model. The annotation key strings are written out as Karpenter's `compatibility.karpenter.sh/...` constants; the file that defines them is not part of this model, and the proofs rely only on the two keys being distinct.
- RoundTrip.V1RoundTrip: states only what the v1 round trip preserves, because the code does not reproduce a v1 object exactly.
