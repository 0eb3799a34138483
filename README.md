# Pod security admission rules

A Dafny model of the `security-policy` capability of the security admission controller
(`capabilities/security.ts`). The capability registers four handlers for Pods that are
created or updated:

1. a **privilege-escalation validator**, which denies a pod when some container sets
   `allowPrivilegeEscalation` or `privileged` to `true`;
2. a **root-user defaulting mutator**, which gives every container and the pod itself a
   security context and fills `runAsNonRoot := true`, `runAsUser := 1000`,
   `runAsGroup := 1000` wherever those fields are undefined;
3. a **root-user validator**, which denies when the pod-level context is root
   (`runAsNonRoot === false || runAsUser === 0`) and otherwise denies when some
   container's context is root;
4. a **resource-limits defaulting mutator**, which gives each container default
   `limits` (`cpu: "200m"`, `memory: "256Mi"`) and `requests` (`cpu: "100m"`,
   `memory: "128Mi"`) when that whole group is absent;

plus `securityContextMessage`, which builds the deny reason
`<msg>. Authorized: [<a1> | <a2> ...] Found: <json1> | <json2> ...`.

Layout:

- `wrappers.dfy` (module `Wrappers`): `Option`, used for every field that may be
  `undefined`, so that "absent" stays distinct from an explicit `false` or `0`.
- `sequences.dfy` (module `Sequences`): the JavaScript array operations the handlers use
  (`filter`, `map`, `join`) and substring containment.
- `kubernetes.dfy` (module `Kubernetes`): the fields of the Pod manifest the handlers read
  or write.
- `security.dfy` (module `Security`): the decision type, the formatter, both validators
  (functions over a `PodSpec` value), each mutator's effect as a function on `PodSpec`
  with its lemmas, and the `Pod` class whose methods `ApplyRootUserDefaults` and
  `ApplyResourceDefaults` perform the mutations in place with loops, each proved equal
  to its specification function.

`JSON.stringify` is a parameter of type `Serializer = Container -> string` supplied by the
caller; every statement about the reason text holds for any serializer.

Source behaviour worth noting:

- the reason lists `JSON.stringify(c)` of each violating container, that is, the whole
  container object including its name, image and resources;
- the root-user validator dereferences container contexts without a guard, so a
  missing context is not "no violation": it is excluded by the validator's precondition,
  which the root-user mutator establishes (`MutateThenValidateRootUser`);
- the authorized list of the container root check reads `runAsNonRoot = false` and
  `runAsUser > 0`, while the rule denies `runAsNonRoot === false` and only
  `runAsUser === 0`; a negative user passes (`NegativeUserIsNotRoot`). The text is kept
  as written, because the repository's tests match on it.

## Model

| member | source | states |
|---|---|---|
| `Sequences.Filter` | capabilities/security.ts:19-23 | the violator list holds exactly the containers that meet the predicate: each kept element satisfies it, and every input element that satisfies it is kept |
| `Sequences.FilterAppend` | capabilities/security.ts:105-107 | filtering preserves input order: filtering a concatenation is the concatenation of the filtered parts |
| `Sequences.Map` | capabilities/security.ts:154 | `ctx.map(...)` yields one entry per container, the i-th being the serialization of the i-th container |
| `Sequences.Join` | capabilities/security.ts:154-155 | `join` gives the empty string for no parts, starts with the first part, and drops nothing: every part is a substring of the joined string |
| `Security.Truthy` | capabilities/security.ts:155 | the callback `a => a`: JavaScript truthiness of a `string` or `undefined`, true only for a defined, non-empty string |
| `Security.Compact` | capabilities/security.ts:155 | `authorized.filter(a => a)` keeps only non-empty defined entries and keeps every one of them |
| `Security.CompactAppend` | capabilities/security.ts:155 | the kept authorized entries stay in input order: compacting a concatenation is the concatenation of the compacted parts |
| `Security.SecurityContextMessage` | capabilities/security.ts:149-158 | the reason starts with the summary followed by `. Authorized: [`, and contains the serialization of every container it is given |
| `Security.MessageWithTwoConstraints` | capabilities/security.ts:154-157 | with two authorized constraints, the reason is the summary, the two constraints in brackets, `Found: `, then the serializations joined by the separator |
| `Security.MessageWithoutViolatorsEndsInFound` | capabilities/security.ts:154-157 | for every summary and authorized list, a reason with no violators ends in `] Found: ` |
| `Security.MessageWithoutViolators` | capabilities/security.ts:149-157 | an example: an undefined entry and an empty entry are both dropped from the authorized list |
| `Security.OrEmpty` | capabilities/security.ts:97 | the `or {}` fallback (also used by the mutator at lines 49 and 70) keeps a present context and gives the empty object for an absent one |
| `Security.EscalatesPrivilege` | capabilities/security.ts:20-22 | either flag alone at `true` makes a container a violator; an absent context, absent flags or explicit `false` never do |
| `Security.ValidatePrivilegeEscalation` | capabilities/security.ts:19-35 | denies iff some container has `allowPrivilegeEscalation` or `privileged` exactly `true` (absent context, absent field or `false` never deny); the reason starts with the fixed privilege prefix and names every violating container |
| `Security.PrivilegeReason` | capabilities/security.ts:26-31 | the privilege reason is the summary, the two authorized constraints `allowPrivilegeEscalation = false` and `privileged = false` in brackets, then `Found: ` and the joined serializations |
| `Security.PrivilegeReasonPrefixText` | capabilities/security.ts:28-29 | the summary and constraints concatenated as the formatter does spell exactly `Privilege escalation is disallowed. Authorized: [allowPrivilegeEscalation = false`, the separator, `privileged = false] Found: `, the text the repository's tests match |
| `Security.PrivilegeDenialReason` | capabilities/security.ts:19-32 | a privilege denial's reason is exactly the prefix followed by every escalating container, in input order, joined by the separator |
| `Security.ReasonNamesEveryViolator` | capabilities/security.ts:105-116 | a reason built from the filtered containers names every container the filter selects, not only the first |
| `Security.ValidateRootUser` | capabilities/security.ts:87-120 | a root pod-level context (absent read as `{}`) denies with the fixed pod message whatever the containers; otherwise denies iff some container context is root, with the fixed container prefix and every root container named; container contexts must be present only when the pod level passes |
| `Security.RootReason` | capabilities/security.ts:110-116 | the container root reason is the summary, the authorized constraints `runAsNonRoot = false` and `runAsUser > 0` in brackets, then `Found: ` and the joined serializations |
| `Security.RootReasonPrefixText` | capabilities/security.ts:112-113 | the summary and constraints concatenated as the formatter does spell exactly `Unauthorized container securityContext. Containers must not run as root. Authorized: [runAsNonRoot = false`, the separator, `runAsUser > 0] Found: `, the text the repository's tests match |
| `Security.RootDenialReason` | capabilities/security.ts:105-116 | a container-level root denial's reason lists exactly the root containers, in input order |
| `Security.RunsAsRoot` | capabilities/security.ts:105-107 | the filter callback: on a present context it is exactly `isRoot`; an absent context, which the source would dereference and throw on, never reaches it because `ValidateRootUser` requires every container context when the pod level passes |
| `Security.IsRoot` | capabilities/security.ts:89-94 | `runAsNonRoot = false` alone or `runAsUser = 0` alone makes a context root; a context with neither is not, and absent fields never make it root |
| `Security.NegativeUserIsNotRoot` | capabilities/security.ts:89-94 | `isRoot` rejects only user 0: a negative `runAsUser` without `runAsNonRoot = false` is not root |
| `Security.WithRootDefaults` | capabilities/security.ts:49-64 | a defaulted context has all three `runAs*` fields set and agrees with the original (absent read as `{}`) on every other field |
| `Security.ContainerWithRootDefaults` | capabilities/security.ts:47-65 | the per-container step: the security context becomes its defaulted form and every other container field is unchanged |
| `Security.DefaultRunAsFields` | capabilities/security.ts:49-64 | creating the context when absent and then the three guarded assignments computes the defaulted context |
| `Security.RootDefaultsNeverOverwrite` | capabilities/security.ts:52-63 | a present `runAs*` field, including `runAsNonRoot = false` or `runAsUser = 0`, is kept; an absent one becomes `true`, `1000`, `1000` |
| `Security.RootDefaultsPreserveIsRoot` | capabilities/security.ts:52-94 | defaulting never changes whether a context is root |
| `Security.MutateRootUser` | capabilities/security.ts:47-85 | after the root-user mutator the pod context and every container context are exactly the defaulted forms of the old ones, with all three `runAs*` fields present; containers keep their order and every other container field |
| `Security.MutateRootUserIdempotent` | capabilities/security.ts:47-85 | applying the root-user mutator twice equals applying it once |
| `Security.MutateThenValidateRootUser` | capabilities/security.ts:43-120 | after the mutator, every container context is present, and the root-user validator approves iff no context was explicitly root before mutation |
| `Security.DefaultedPodIsApproved` | capabilities/security.ts:52-98 | a pod whose contexts set neither `runAsNonRoot` nor `runAsUser` is approved after the mutator |
| `Security.RootDefaultsKeepPrivilegeVerdict` | capabilities/security.ts:19-85 | the root-user mutator does not change the privilege validator's verdict |
| `Security.Pod.ApplyRootUserDefaults` | capabilities/security.ts:47-85 | the in-place loop over containers followed by the pod-level update leaves the pod equal to `MutateRootUser` of the old pod |
| `Security.WithResourceDefaults` | capabilities/security.ts:131-145 | defaulted resources have both `limits` and `requests`, and agree with the original (absent read as `{}`) on every other field |
| `Security.MutateResources` | capabilities/security.ts:129-146 | every container ends with `limits` and `requests`; an absent group becomes exactly the default constants; a present group, even a partial one, is unchanged; nothing else in the pod changes |
| `Security.MutateResourcesIdempotent` | capabilities/security.ts:129-146 | applying the resource-limits mutator twice equals applying it once |
| `Security.ResourceDefaultsKeepVerdicts` | capabilities/security.ts:126-147 | the resource-limits mutator changes neither validator's verdict |
| `Security.ContainerWithResourceDefaults` | capabilities/security.ts:129-146 | the per-container step: the resources become their defaulted form and every other container field is unchanged |
| `Security.DefaultResourceGroups` | capabilities/security.ts:131-145 | creating the resources when absent and then the two guarded assignments computes the defaulted resources |
| `Security.Pod.ApplyResourceDefaults` | capabilities/security.ts:129-146 | the in-place loop over containers leaves the pod equal to `MutateResources` of the old pod |

## Left out

- The host framework: `Capability` construction, the `secure-namespace` filter,
  `When(a.Pod).IsCreatedOrUpdated()`, `request.Approve`/`request.Deny` and
  `request.Raw` (capabilities/security.ts:1-10, 16-18, 43-45, 126-128) are library calls
  whose code is not part of this model; the validators return a `Decision` and the
  mutators act on a `Pod` object instead.
- The order in which the host runs mutating and validating handlers, and whether it
  persists mutations of a denied pod, belong to the host; the lemmas relate the handlers
  pairwise instead (mutate then validate, verdicts kept by the other mutator).
- `containers(request)` is a library helper; the model takes its result as the pod's
  container list.
- `JSON.stringify` is a foreign serializer; it is the `Serializer` parameter, a function of the
  modelled `Container` value only. The real output also prints fields the model omits, and
  prints keys in insertion order, which the mutators change when they add `securityContext`,
  the `runAs*` fields and `resources`; the reason text is modelled only up to that abstraction.
- Container objects are values in the pod's array, so aliasing between the container
  objects of one request is not modelled; each mutator overwrites array entries one at a
  time, in order.
- JSON `null` is not distinguished from an absent field; only `undefined` versus a
  present value is modelled.
- `request.Raw.spec!` is assumed present; a pod without a spec is not modelled.
- Only the manifest fields the handlers touch are modelled (plus `readOnlyRootFilesystem`,
  `claims`, `name` and `image`, to show that they are left unchanged); the pod-level
  context shares the container context's shape.
- CPU and memory quantities are opaque strings; nothing parses them.
- `Security.ValidateRootUser`: an unguarded dereference of a missing container context
  throws in the source; the model states this as a precondition rather than modelling
  the exception.
- pepr.ts (module registration) and capabilities/security.spec.ts (tests against a live
  cluster) are not part of this model; the tests only fixed the reason substrings.
