/**
 * The pod admission rules of the `security-policy` capability: a privilege-escalation
 * validator, a root-user defaulting mutator and its validator, a resource-limits
 * defaulting mutator, and the formatter of deny reasons.
 *
 * Validators and the formatter are functions over a `PodSpec` value. The mutators
 * update a `Pod` object in place; each is specified by a function on `PodSpec`
 * (`MutateRootUser`, `MutateResources`) about which the lemmas are stated.
 */
module Security {
  import opened Wrappers
  import opened Sequences
  import opened Kubernetes

  /** What a validator answers: `request.Approve()` or `request.Deny(reason)`. */
  datatype Decision = Approved | Denied(reason: string)

  /** `JSON.stringify` of a container, supplied by the host. */
  type Serializer = Container -> string

  /** `ctx || {}`: an absent context reads as the empty object. */
  function OrEmpty(ctx: Option<SecurityContext>): (r: SecurityContext)
    ensures ctx.Some? ==> r == ctx.value
    ensures ctx.None? ==> r == EmptySecurityContext
  {
    ctx.GetOr(EmptySecurityContext)
  }

  // ---------------------------------------------------------------------------
  // securityContextMessage

  const Separator := " | "

  /** JavaScript truthiness of a `string | undefined`: neither `undefined` nor `""`. */
  predicate Truthy(a: Option<string>)
    ensures Truthy(a) ==> a.Some?
    ensures a == Some("") ==> !Truthy(a)
    ensures a.Some? && a.value != "" ==> Truthy(a)
  {
    a.Some? && a.value != ""
  }

  /** `authorized.filter(a => a)`: the truthy entries, in order. */
  function Compact(authorized: seq<Option<string>>): (r: seq<string>)
    ensures forall s :: s in r ==> s != "" && Some(s) in authorized
    ensures forall i :: 0 <= i < |authorized| && Truthy(authorized[i]) ==> authorized[i].value in r
  {
    if authorized == [] then []
    else (if Truthy(authorized[0]) then [authorized[0].value] else []) + Compact(authorized[1..])
  }

  /** Filtering a concatenation compacts each part: the kept entries stay in input order. */
  lemma {:induction false} CompactAppend(a: seq<Option<string>>, b: seq<Option<string>>)
    ensures Compact(a + b) == Compact(a) + Compact(b)
  {
    if a == [] {
      assert a + b == b;
    } else {
      assert (a + b)[1..] == a[1..] + b;
      CompactAppend(a[1..], b);
    }
  }

  /**
   * `securityContextMessage(msg, authorized, ctx)`: the reason starts with the summary and
   * the opening of the authorized list, and names every container it is given, each as its
   * serialization.
   */
  function SecurityContextMessage(msg: string, authorized: seq<Option<string>>, ser: Serializer, ctx: seq<Container>): (r: string)
    ensures msg + ". Authorized: [" <= r
    ensures forall i :: 0 <= i < |ctx| ==> IsInfix(ser(ctx[i]), r)
  {
    var head := msg + ". Authorized: [" + Join(Compact(authorized), Separator) + "] Found: ";
    var found := Map(ctx, ser);
    InfixesOfSuffix(found, head, Join(found, Separator));
    head + Join(found, Separator)
  }

  /** A reason with two authorized constraints is its fixed prefix followed by the joined serializations. */
  lemma MessageWithTwoConstraints(msg: string, authorized: seq<Option<string>>, ser: Serializer, ctx: seq<Container>,
                                  a1: string, a2: string, prefix: string)
    requires Compact(authorized) == [a1, a2]
    requires msg + ". Authorized: [" + a1 + Separator + a2 + "] Found: " == prefix
    ensures SecurityContextMessage(msg, authorized, ser, ctx) == prefix + Join(Map(ctx, ser), Separator)
  {
    assert Join([a1, a2], Separator) == a1 + Separator + a2 by {
      assert [a1, a2][1..] == [a2];
    }
    Regroup(msg + ". Authorized: [", a1, Separator, a2, "] Found: ", Join(Map(ctx, ser), Separator));
  }

  lemma Regroup(open: string, a1: string, sep: string, a2: string, close: string, rest: string)
    ensures open + (a1 + sep + a2) + close + rest == open + a1 + sep + a2 + close + rest
  {
  }

  /** With no violators the reason ends in `"] Found: "`, whatever the summary and the authorized list. */
  lemma MessageWithoutViolatorsEndsInFound(msg: string, authorized: seq<Option<string>>, ser: Serializer)
    ensures var r := SecurityContextMessage(msg, authorized, ser, []);
      |r| >= 9 && r[|r| - 9..] == "] Found: "
  {
  }

  /** An example: undefined and empty authorized entries are dropped before joining. */
  lemma MessageWithoutViolators(msg: string, a: string, ser: Serializer)
    requires a != ""
    ensures SecurityContextMessage(msg, [None, Some(a), Some("")], ser, []) == msg + ". Authorized: [" + a + "] Found: "
  {
    var authorized := [None, Some(a), Some("")];
    assert Compact(authorized) == [a] by {
      assert Compact(authorized[1..][1..]) == [] by {
        assert authorized[1..][1..] == [Some("")];
        assert authorized[1..][1..][1..] == [];
      }
      assert authorized[1..] == [Some(a), Some("")];
    }
  }

  // ---------------------------------------------------------------------------
  // Privilege-escalation validator

  const PrivilegeSummary := "Privilege escalation is disallowed"
  const PrivilegeAuthorized: seq<Option<string>> := [Some("allowPrivilegeEscalation = false"), Some("privileged = false")]
  /** The privilege reason up to the violators, as the repository's tests match it. */
  const PrivilegeReasonPrefix := "Privilege escalation is disallowed. Authorized: [allowPrivilegeEscalation = false | privileged = false] Found: "

  /**
   * `c.securityContext?.allowPrivilegeEscalation === true || c.securityContext?.privileged === true`:
   * either flag alone at `true` escalates; an absent context, absent flags or explicit `false` never do.
   */
  predicate EscalatesPrivilege(c: Container)
    ensures c.securityContext.None? ==> !EscalatesPrivilege(c)
    ensures c.securityContext.Some? && c.securityContext.value.allowPrivilegeEscalation == Some(true) ==> EscalatesPrivilege(c)
    ensures c.securityContext.Some? && c.securityContext.value.privileged == Some(true) ==> EscalatesPrivilege(c)
    ensures (c.securityContext.Some? && c.securityContext.value.allowPrivilegeEscalation != Some(true) &&
      c.securityContext.value.privileged != Some(true)) ==> !EscalatesPrivilege(c)
  {
    c.securityContext.Some? &&
    (c.securityContext.value.allowPrivilegeEscalation == Some(true) || c.securityContext.value.privileged == Some(true))
  }

  /** Denies exactly when some container escalates privilege, naming every such container. */
  function ValidatePrivilegeEscalation(ser: Serializer, pod: PodSpec): (d: Decision)
    ensures d.Approved? <==> forall i :: 0 <= i < |pod.containers| ==> !EscalatesPrivilege(pod.containers[i])
    ensures d.Denied? ==> PrivilegeReasonPrefix <= d.reason
    ensures forall i :: 0 <= i < |pod.containers| && EscalatesPrivilege(pod.containers[i]) ==>
      d.Denied? && IsInfix(ser(pod.containers[i]), d.reason)
  {
    var violations := Filter(pod.containers, EscalatesPrivilege);
    if |violations| > 0 then
      assert violations[0] in pod.containers && EscalatesPrivilege(violations[0]);
      var d := Denied(SecurityContextMessage(PrivilegeSummary, PrivilegeAuthorized, ser, violations));
      PrivilegeReason(ser, violations);
      ReasonNamesEveryViolator(PrivilegeSummary, PrivilegeAuthorized, ser, pod.containers, EscalatesPrivilege);
      d
    else
      Approved
  }

  /** A denial lists exactly the escalating containers, in input order. */
  lemma PrivilegeDenialReason(ser: Serializer, pod: PodSpec)
    requires ValidatePrivilegeEscalation(ser, pod).Denied?
    ensures ValidatePrivilegeEscalation(ser, pod).reason
      == PrivilegeReasonPrefix + Join(Map(Filter(pod.containers, EscalatesPrivilege), ser), Separator)
  {
    PrivilegeReason(ser, Filter(pod.containers, EscalatesPrivilege));
  }

  /** The privilege reason is the fixed prefix followed by the joined serializations. */
  lemma PrivilegeReason(ser: Serializer, violations: seq<Container>)
    ensures SecurityContextMessage(PrivilegeSummary, PrivilegeAuthorized, ser, violations)
      == PrivilegeReasonPrefix + Join(Map(violations, ser), Separator)
  {
    assert Compact(PrivilegeAuthorized) == ["allowPrivilegeEscalation = false", "privileged = false"] by {
      assert PrivilegeAuthorized[1..] == [Some("privileged = false")];
      assert PrivilegeAuthorized[1..][1..] == [];
    }
    PrivilegeReasonPrefixText();
    MessageWithTwoConstraints(PrivilegeSummary, PrivilegeAuthorized, ser, violations, "allowPrivilegeEscalation = false", "privileged = false", PrivilegeReasonPrefix);
  }

  /** The pieces the formatter concatenates for the privilege reason spell out its fixed prefix. */
  lemma PrivilegeReasonPrefixText()
    ensures PrivilegeSummary + ". Authorized: [" + "allowPrivilegeEscalation = false" + Separator + "privileged = false" + "] Found: "
      == PrivilegeReasonPrefix
  {
    // The solver checks one concatenation of two literals at a time.
    PrivilegePrefixStep1();
    PrivilegePrefixStep2();
    PrivilegePrefixStep3();
    PrivilegePrefixStep4();
    PrivilegePrefixStep5();
  }

  lemma PrivilegePrefixStep1()
    ensures PrivilegeSummary + ". Authorized: [" == "Privilege escalation is disallowed. Authorized: ["
  {
  }

  lemma PrivilegePrefixStep2()
    ensures "Privilege escalation is disallowed. Authorized: [" + "allowPrivilegeEscalation = false"
      == "Privilege escalation is disallowed. Authorized: [allowPrivilegeEscalation = false"
  {
  }

  lemma PrivilegePrefixStep3()
    ensures "Privilege escalation is disallowed. Authorized: [allowPrivilegeEscalation = false" + Separator
      == "Privilege escalation is disallowed. Authorized: [allowPrivilegeEscalation = false | "
  {
  }

  lemma PrivilegePrefixStep4()
    ensures "Privilege escalation is disallowed. Authorized: [allowPrivilegeEscalation = false | " + "privileged = false"
      == "Privilege escalation is disallowed. Authorized: [allowPrivilegeEscalation = false | privileged = false"
  {
  }

  lemma PrivilegePrefixStep5()
    ensures "Privilege escalation is disallowed. Authorized: [allowPrivilegeEscalation = false | privileged = false" + "] Found: "
      == PrivilegeReasonPrefix
  {
  }

  /** Every container that `p` selects is named in a reason built from `Filter(cs, p)`. */
  lemma ReasonNamesEveryViolator(msg: string, authorized: seq<Option<string>>, ser: Serializer, cs: seq<Container>, p: Container -> bool)
    ensures forall i :: 0 <= i < |cs| && p(cs[i]) ==>
      IsInfix(ser(cs[i]), SecurityContextMessage(msg, authorized, ser, Filter(cs, p)))
  {
    var violations := Filter(cs, p);
    forall i | 0 <= i < |cs| && p(cs[i])
      ensures IsInfix(ser(cs[i]), SecurityContextMessage(msg, authorized, ser, violations))
    {
      var j :| 0 <= j < |violations| && violations[j] == cs[i];
    }
  }

  // ---------------------------------------------------------------------------
  // Root-user validator

  const PodRootReason := "Pod level securityContext does not meet the non-root user requirement."
  const RootSummary := "Unauthorized container securityContext. Containers must not run as root"
  const RootAuthorized: seq<Option<string>> := [Some("runAsNonRoot = false"), Some("runAsUser > 0")]
  /** The container root reason up to the violators, as the repository's tests match it. */
  const RootReasonPrefix := "Unauthorized container securityContext. Containers must not run as root. Authorized: [runAsNonRoot = false | runAsUser > 0] Found: "

  /**
   * `isRoot(ctx)`: `runAsNonRoot === false || runAsUser === 0`. Either condition alone makes a
   * context root; a context with neither field set never is.
   */
  predicate IsRoot(ctx: SecurityContext)
    ensures ctx.runAsNonRoot == Some(false) ==> IsRoot(ctx)
    ensures ctx.runAsUser == Some(0) ==> IsRoot(ctx)
    ensures IsRoot(ctx) ==> ctx.runAsNonRoot.Some? || ctx.runAsUser.Some?
    ensures ctx.runAsNonRoot != Some(false) && ctx.runAsUser != Some(0) ==> !IsRoot(ctx)
  {
    ctx.runAsNonRoot == Some(false) || ctx.runAsUser == Some(0)
  }

  /** `isRoot(c.securityContext)` for a container whose context is present. */
  /**
   * The filter callback `c => isRoot(c.securityContext)`. On a present context it is `isRoot`;
   * an absent context, which `isRoot` would dereference and throw on, is excluded by
   * `ValidateRootUser`'s precondition, so the `Some?` guard here is never what decides.
   */
  predicate RunsAsRoot(c: Container)
    ensures c.securityContext.Some? ==> (RunsAsRoot(c) <==> IsRoot(c.securityContext.value))
  {
    c.securityContext.Some? && IsRoot(c.securityContext.value)
  }

  predicate ContextsPresent(cs: seq<Container>)
  {
    forall i :: 0 <= i < |cs| ==> cs[i].securityContext.Some?
  }

  /**
   * The pod-level context (absent read as `{}`) is checked first and alone; only when it passes
   * are the containers checked, and their contexts are dereferenced without a guard.
   */
  function ValidateRootUser(ser: Serializer, pod: PodSpec): (d: Decision)
    requires !IsRoot(OrEmpty(pod.securityContext)) ==> ContextsPresent(pod.containers)
    ensures IsRoot(OrEmpty(pod.securityContext)) ==> d == Denied(PodRootReason)
    ensures !IsRoot(OrEmpty(pod.securityContext)) ==>
      (d.Approved? <==> forall i :: 0 <= i < |pod.containers| ==> !IsRoot(pod.containers[i].securityContext.value))
    ensures !IsRoot(OrEmpty(pod.securityContext)) && d.Denied? ==> RootReasonPrefix <= d.reason
    ensures !IsRoot(OrEmpty(pod.securityContext)) ==>
      forall i :: 0 <= i < |pod.containers| && IsRoot(pod.containers[i].securityContext.value) ==>
        d.Denied? && IsInfix(ser(pod.containers[i]), d.reason)
  {
    if IsRoot(OrEmpty(pod.securityContext)) then
      Denied(PodRootReason)
    else
      var violations := Filter(pod.containers, RunsAsRoot);
      if |violations| > 0 then
        assert violations[0] in pod.containers && RunsAsRoot(violations[0]);
        RootReason(ser, violations);
        ReasonNamesEveryViolator(RootSummary, RootAuthorized, ser, pod.containers, RunsAsRoot);
        Denied(SecurityContextMessage(RootSummary, RootAuthorized, ser, violations))
      else
        assert forall i :: 0 <= i < |pod.containers| ==> !RunsAsRoot(pod.containers[i]);
        Approved
  }

  /** The container-level root reason is the fixed prefix followed by the joined serializations. */
  lemma RootReason(ser: Serializer, violations: seq<Container>)
    ensures SecurityContextMessage(RootSummary, RootAuthorized, ser, violations)
      == RootReasonPrefix + Join(Map(violations, ser), Separator)
  {
    assert Compact(RootAuthorized) == ["runAsNonRoot = false", "runAsUser > 0"] by {
      assert RootAuthorized[1..] == [Some("runAsUser > 0")];
      assert RootAuthorized[1..][1..] == [];
    }
    RootReasonPrefixText();
    MessageWithTwoConstraints(RootSummary, RootAuthorized, ser, violations, "runAsNonRoot = false", "runAsUser > 0", RootReasonPrefix);
  }

  /** The pieces the formatter concatenates for the container root reason spell out its fixed prefix. */
  lemma RootReasonPrefixText()
    ensures RootSummary + ". Authorized: [" + "runAsNonRoot = false" + Separator + "runAsUser > 0" + "] Found: "
      == RootReasonPrefix
  {
    // The solver checks one concatenation of two literals at a time.
    RootPrefixStep1();
    RootPrefixStep2();
    RootPrefixStep3();
    RootPrefixStep4();
    RootPrefixStep5();
  }

  lemma RootPrefixStep1()
    ensures RootSummary + ". Authorized: ["
      == "Unauthorized container securityContext. Containers must not run as root. Authorized: ["
  {
  }

  lemma RootPrefixStep2()
    ensures "Unauthorized container securityContext. Containers must not run as root. Authorized: [" + "runAsNonRoot = false"
      == "Unauthorized container securityContext. Containers must not run as root. Authorized: [runAsNonRoot = false"
  {
  }

  lemma RootPrefixStep3()
    ensures "Unauthorized container securityContext. Containers must not run as root. Authorized: [runAsNonRoot = false" + Separator
      == "Unauthorized container securityContext. Containers must not run as root. Authorized: [runAsNonRoot = false | "
  {
  }

  lemma RootPrefixStep4()
    ensures "Unauthorized container securityContext. Containers must not run as root. Authorized: [runAsNonRoot = false | " + "runAsUser > 0"
      == "Unauthorized container securityContext. Containers must not run as root. Authorized: [runAsNonRoot = false | runAsUser > 0"
  {
  }

  lemma RootPrefixStep5()
    ensures "Unauthorized container securityContext. Containers must not run as root. Authorized: [runAsNonRoot = false | runAsUser > 0" + "] Found: "
      == RootReasonPrefix
  {
  }

  /** A container-level denial lists exactly the root containers, in input order. */
  lemma RootDenialReason(ser: Serializer, pod: PodSpec)
    requires !IsRoot(OrEmpty(pod.securityContext)) && ContextsPresent(pod.containers)
    requires ValidateRootUser(ser, pod).Denied?
    ensures ValidateRootUser(ser, pod).reason == RootReasonPrefix + Join(Map(Filter(pod.containers, RunsAsRoot), ser), Separator)
  {
    RootReason(ser, Filter(pod.containers, RunsAsRoot));
  }

  /** `isRoot` rejects only user 0: a negative `runAsUser` passes, although the reason text advertises `runAsUser > 0`. */
  lemma NegativeUserIsNotRoot(ctx: SecurityContext)
    requires ctx.runAsNonRoot != Some(false)
    requires ctx.runAsUser.Some? && ctx.runAsUser.value < 0
    ensures !IsRoot(ctx)
  {
  }

  // ---------------------------------------------------------------------------
  // Root-user defaulting mutator, as a function of the pod

  const DefaultUser := 1000
  const DefaultGroup := 1000

  /** One context after defaulting: created if absent, then each `runAs*` field set only if undefined. */
  function WithRootDefaults(ctx: Option<SecurityContext>): (r: SecurityContext)
    ensures r.runAsNonRoot.Some? && r.runAsUser.Some? && r.runAsGroup.Some?
    ensures var c := OrEmpty(ctx);
      r.(runAsNonRoot := c.runAsNonRoot, runAsUser := c.runAsUser, runAsGroup := c.runAsGroup) == c
  {
    var c := OrEmpty(ctx);
    c.(runAsNonRoot := if c.runAsNonRoot.None? then Some(true) else c.runAsNonRoot,
       runAsUser := if c.runAsUser.None? then Some(DefaultUser) else c.runAsUser,
       runAsGroup := if c.runAsGroup.None? then Some(DefaultGroup) else c.runAsGroup)
  }

  /** The per-container step of the root-user mutator: only the security context changes. */
  function ContainerWithRootDefaults(c: Container): (r: Container)
    ensures r.securityContext == Some(WithRootDefaults(c.securityContext))
    ensures r.(securityContext := c.securityContext) == c
  {
    c.(securityContext := Some(WithRootDefaults(c.securityContext)))
  }

  /**
   * The root-user mutator's effect on the whole pod: afterwards the pod context and every container
   * context exist with all three `runAs*` fields set; the containers keep their order and every
   * field other than their security context.
   */
  function MutateRootUser(pod: PodSpec): (r: PodSpec)
    ensures r.securityContext.Some? &&
      r.securityContext.value.runAsNonRoot.Some? && r.securityContext.value.runAsUser.Some? &&
      r.securityContext.value.runAsGroup.Some?
    ensures |r.containers| == |pod.containers|
    ensures forall i :: 0 <= i < |r.containers| ==>
      r.containers[i].securityContext.Some? &&
      r.containers[i].securityContext.value.runAsNonRoot.Some? &&
      r.containers[i].securityContext.value.runAsUser.Some? &&
      r.containers[i].securityContext.value.runAsGroup.Some? &&
      r.containers[i].(securityContext := pod.containers[i].securityContext) == pod.containers[i]
    ensures r.securityContext == Some(WithRootDefaults(pod.securityContext))
    ensures forall i :: 0 <= i < |r.containers| ==>
      r.containers[i].securityContext == Some(WithRootDefaults(pod.containers[i].securityContext))
  {
    PodSpec(Some(WithRootDefaults(pod.securityContext)), Map(pod.containers, ContainerWithRootDefaults))
  }

  /** A field already present, including `runAsNonRoot = false` and `runAsUser = 0`, is kept; an absent one gets its default. */
  lemma RootDefaultsNeverOverwrite(ctx: Option<SecurityContext>)
    ensures var c, r := OrEmpty(ctx), WithRootDefaults(ctx);
      r.runAsNonRoot == (if c.runAsNonRoot.Some? then c.runAsNonRoot else Some(true)) &&
      r.runAsUser == (if c.runAsUser.Some? then c.runAsUser else Some(DefaultUser)) &&
      r.runAsGroup == (if c.runAsGroup.Some? then c.runAsGroup else Some(DefaultGroup))
  {
  }

  /** Defaulting a context never changes whether it is root. */
  lemma RootDefaultsPreserveIsRoot(ctx: Option<SecurityContext>)
    ensures IsRoot(WithRootDefaults(ctx)) <==> IsRoot(OrEmpty(ctx))
  {
  }

  /** Applying the root-user mutator twice gives what applying it once gives. */
  lemma MutateRootUserIdempotent(pod: PodSpec)
    ensures MutateRootUser(MutateRootUser(pod)) == MutateRootUser(pod)
  {
    var m := MutateRootUser(pod);
    var mm := MutateRootUser(m);
    assert mm.containers == m.containers by {
      forall i | 0 <= i < |m.containers| ensures mm.containers[i] == m.containers[i] {
        RootDefaultsNeverOverwrite(m.containers[i].securityContext);
      }
    }
    RootDefaultsNeverOverwrite(m.securityContext);
  }

  /**
   * Mutation then validation: the mutated pod meets the validator's precondition, and the validator
   * approves exactly when neither the pod-level nor any container context (absent read as `{}`) was
   * explicitly root before mutation.
   */
  lemma MutateThenValidateRootUser(ser: Serializer, pod: PodSpec)
    ensures var m := MutateRootUser(pod);
      ContextsPresent(m.containers) &&
      (ValidateRootUser(ser, m).Approved? <==>
        !IsRoot(OrEmpty(pod.securityContext)) &&
        forall i :: 0 <= i < |pod.containers| ==> !IsRoot(OrEmpty(pod.containers[i].securityContext)))
  {
    var m := MutateRootUser(pod);
    RootDefaultsPreserveIsRoot(pod.securityContext);
    forall i | 0 <= i < |pod.containers|
      ensures IsRoot(m.containers[i].securityContext.value) <==> IsRoot(OrEmpty(pod.containers[i].securityContext))
    {
      RootDefaultsPreserveIsRoot(pod.containers[i].securityContext);
    }
  }

  /** A pod whose contexts set neither `runAsNonRoot` nor `runAsUser` is approved once the mutator has run. */
  lemma DefaultedPodIsApproved(ser: Serializer, pod: PodSpec)
    requires pod.securityContext.Some? ==> pod.securityContext.value.runAsNonRoot.None? && pod.securityContext.value.runAsUser.None?
    requires forall i :: 0 <= i < |pod.containers| && pod.containers[i].securityContext.Some? ==>
      pod.containers[i].securityContext.value.runAsNonRoot.None? && pod.containers[i].securityContext.value.runAsUser.None?
    ensures ContextsPresent(MutateRootUser(pod).containers)
    ensures ValidateRootUser(ser, MutateRootUser(pod)) == Approved
  {
    MutateThenValidateRootUser(ser, pod);
  }

  /** The root-user mutator touches only `runAs*` fields, so the privilege verdict is the same before and after it. */
  lemma RootDefaultsKeepPrivilegeVerdict(ser: Serializer, pod: PodSpec)
    ensures ValidatePrivilegeEscalation(ser, MutateRootUser(pod)).Approved? == ValidatePrivilegeEscalation(ser, pod).Approved?
  {
    var m := MutateRootUser(pod);
    forall i | 0 <= i < |pod.containers|
      ensures EscalatesPrivilege(m.containers[i]) == EscalatesPrivilege(pod.containers[i])
    {
    }
  }

  // ---------------------------------------------------------------------------
  // Resource-limits defaulting mutator, as a function of the pod

  const DefaultLimits: ResourceList := map["cpu" := "200m", "memory" := "256Mi"]
  const DefaultRequests: ResourceList := map["cpu" := "100m", "memory" := "128Mi"]

  /** One container's resources after defaulting: each of `limits` and `requests` is set, as a whole, only if absent. */
  function WithResourceDefaults(res: Option<ResourceRequirements>): (r: ResourceRequirements)
    ensures r.limits.Some? && r.requests.Some?
    ensures var c := res.GetOr(EmptyResources);
      r.(limits := c.limits, requests := c.requests) == c
  {
    var c := res.GetOr(EmptyResources);
    c.(limits := if c.limits.None? then Some(DefaultLimits) else c.limits,
       requests := if c.requests.None? then Some(DefaultRequests) else c.requests)
  }

  /** The per-container step of the resource-limits mutator: only the resources change. */
  function ContainerWithResourceDefaults(c: Container): (r: Container)
    ensures r.resources == Some(WithResourceDefaults(c.resources))
    ensures r.(resources := c.resources) == c
  {
    c.(resources := Some(WithResourceDefaults(c.resources)))
  }

  /**
   * The resource-limits mutator's effect on the whole pod: every container ends with `limits` and
   * `requests`; an absent group becomes exactly the default, a present group (even a partial one)
   * is kept, and nothing else in the pod changes.
   */
  function MutateResources(pod: PodSpec): (r: PodSpec)
    ensures r.securityContext == pod.securityContext && |r.containers| == |pod.containers|
    ensures forall i :: 0 <= i < |r.containers| ==>
      var before, after := pod.containers[i].resources.GetOr(EmptyResources), r.containers[i].resources;
      after.Some? &&
      after.value.limits == (if before.limits.None? then Some(DefaultLimits) else before.limits) &&
      after.value.requests == (if before.requests.None? then Some(DefaultRequests) else before.requests) &&
      after.value.claims == before.claims &&
      r.containers[i].(resources := pod.containers[i].resources) == pod.containers[i]
  {
    pod.(containers := Map(pod.containers, ContainerWithResourceDefaults))
  }

  /** Applying the resource-limits mutator twice gives what applying it once gives. */
  lemma MutateResourcesIdempotent(pod: PodSpec)
    ensures MutateResources(MutateResources(pod)) == MutateResources(pod)
  {
    var m := MutateResources(pod);
    var mm := MutateResources(m);
    assert mm.containers == m.containers by {
      forall i | 0 <= i < |m.containers| ensures mm.containers[i] == m.containers[i] {
      }
    }
  }

  /** The resource-limits mutator never changes either validator's verdict. */
  lemma ResourceDefaultsKeepVerdicts(ser: Serializer, pod: PodSpec)
    ensures ValidatePrivilegeEscalation(ser, MutateResources(pod)).Approved? == ValidatePrivilegeEscalation(ser, pod).Approved?
    ensures (!IsRoot(OrEmpty(pod.securityContext)) ==> ContextsPresent(pod.containers)) ==>
      ValidateRootUser(ser, MutateResources(pod)).Approved? == ValidateRootUser(ser, pod).Approved?
  {
    var m := MutateResources(pod);
    assert m.securityContext == pod.securityContext;
    assert forall i :: 0 <= i < |pod.containers| ==> m.containers[i].securityContext == pod.containers[i].securityContext;
    if !IsRoot(OrEmpty(pod.securityContext)) && ContextsPresent(pod.containers) {
      assert ContextsPresent(m.containers);
      assert ValidateRootUser(ser, m).Approved? <==> forall i :: 0 <= i < |pod.containers| ==> !IsRoot(pod.containers[i].securityContext.value);
    }
  }

  // ---------------------------------------------------------------------------
  // The pod under admission, mutated in place

  /**
   * `request.Raw.spec`: the pod-level security context and the containers that
   * `containers(request)` yields. The mutators assign the pod-level context and
   * overwrite container entries one at a time.
   */
  class Pod {
    var securityContext: Option<SecurityContext>
    const containers: array<Container>

    constructor (spec: PodSpec)
      ensures Spec() == spec && fresh(containers)
    {
      securityContext := spec.securityContext;
      containers := new Container[|spec.containers|](i requires 0 <= i < |spec.containers| => spec.containers[i]);
    }

    /** The pod as a value, as the validators see it. */
    function Spec(): (r: PodSpec)
      reads this, containers
    {
      PodSpec(securityContext, containers[..])
    }

    /** The root-user mutator: defaults every container's context, then the pod-level one. */
    method ApplyRootUserDefaults()
      modifies this`securityContext, containers
      ensures Spec() == MutateRootUser(old(Spec()))
    {
      var i := 0;
      while i < containers.Length
        invariant 0 <= i <= containers.Length
        invariant securityContext == old(securityContext)
        invariant forall k :: 0 <= k < i ==> containers[k] == ContainerWithRootDefaults(old(containers[k]))
        invariant forall k :: i <= k < containers.Length ==> containers[k] == old(containers[k])
      {
        var c := containers[i];
        var ctx := DefaultRunAsFields(c.securityContext);
        containers[i] := c.(securityContext := Some(ctx));
        i := i + 1;
      }
      var podCtx := DefaultRunAsFields(securityContext);
      securityContext := Some(podCtx);
    }

    /** The resource-limits mutator: defaults `limits` and `requests` of every container. */
    method ApplyResourceDefaults()
      modifies containers
      ensures Spec() == MutateResources(old(Spec()))
    {
      var i := 0;
      while i < containers.Length
        invariant 0 <= i <= containers.Length
        invariant forall k :: 0 <= k < i ==> containers[k] == ContainerWithResourceDefaults(old(containers[k]))
        invariant forall k :: i <= k < containers.Length ==> containers[k] == old(containers[k])
      {
        var c := containers[i];
        var res := DefaultResourceGroups(c.resources);
        containers[i] := c.(resources := Some(res));
        i := i + 1;
      }
    }
  }

  /** The statements that default one context in place: `ctx || {}`, then three guarded assignments. */
  method DefaultRunAsFields(ctx: Option<SecurityContext>) returns (c: SecurityContext)
    ensures c == WithRootDefaults(ctx)
  {
    c := if ctx.Some? then ctx.value else EmptySecurityContext;
    if c.runAsNonRoot.None? {
      c := c.(runAsNonRoot := Some(true));
    }
    if c.runAsUser.None? {
      c := c.(runAsUser := Some(DefaultUser));
    }
    if c.runAsGroup.None? {
      c := c.(runAsGroup := Some(DefaultGroup));
    }
  }

  /** The statements that default one container's resources in place: `resources || {}`, then two guarded assignments. */
  method DefaultResourceGroups(resources: Option<ResourceRequirements>) returns (r: ResourceRequirements)
    ensures r == WithResourceDefaults(resources)
  {
    r := if resources.Some? then resources.value else EmptyResources;
    if r.limits.None? {
      r := r.(limits := Some(DefaultLimits));
    }
    if r.requests.None? {
      r := r.(requests := Some(DefaultRequests));
    }
  }
}
