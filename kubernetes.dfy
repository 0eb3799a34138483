/**
 * The parts of the Kubernetes Pod manifest (client-node's V1PodSpec, V1Container,
 * V1SecurityContext, V1ResourceRequirements) that the admission handlers read or write.
 * Every optional field is an `Option`, so that an absent field stays distinct from an
 * explicit `false` or `0`.
 */
module Kubernetes {
  import opened Wrappers

  /** A resource quantity map such as `{cpu: "200m", memory: "256Mi"}`; quantities are opaque strings. */
  type ResourceList = map<string, string>

  /** A security context. The pod-level context shares this shape: the root-user handlers read the same three `runAs*` fields at both levels. */
  datatype SecurityContext = SecurityContext(
    allowPrivilegeEscalation: Option<bool>,
    privileged: Option<bool>,
    readOnlyRootFilesystem: Option<bool>,
    runAsNonRoot: Option<bool>,
    runAsUser: Option<int>,
    runAsGroup: Option<int>)

  /** The object literal `{}`. */
  const EmptySecurityContext := SecurityContext(None, None, None, None, None, None)

  datatype ResourceRequirements = ResourceRequirements(
    claims: Option<seq<string>>,
    limits: Option<ResourceList>,
    requests: Option<ResourceList>)

  const EmptyResources := ResourceRequirements(None, None, None)

  datatype Container = Container(
    name: string,
    image: string,
    securityContext: Option<SecurityContext>,
    resources: Option<ResourceRequirements>)

  /** `request.Raw.spec`: the pod-level security context and the containers. */
  datatype PodSpec = PodSpec(securityContext: Option<SecurityContext>, containers: seq<Container>)
}
