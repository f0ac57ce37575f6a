/** Where the two tiers render the same objects, and what they differ by elsewhere. */
module Parity {
  import opened Values
  import opened Workloads
  import opened Chart
  import opened Tiers

  /** What the templates read at a key once the user's values overlay the defaults. */
  function Reading(user: Option<Value>, fallback: Value): Value
  {
    if user.None? then fallback
    else if user.value.Map? && fallback.Map? then Map(Overlay(user.value.entries, fallback.entries))
    else user.value
  }

  lemma ReadsCoalesced(user: map<string, Value>, defaults: map<string, Value>, k: string)
    ensures Get(Map(Overlay(user, defaults)), k) == Reading(Member(user, k), Get(Map(defaults), k))
  {
  }

  lemma MemberOfWith(m: map<string, Value>, k: string, v: Option<Value>, j: string)
    ensures Member(With(m, k, v), j) == if j == k && v.Some? then v else Member(m, j)
  {
  }

  /** The optional entry under a key. */
  function Entry(o: Optional, k: string): Option<Value>
  {
    if k == "livenessProbe" then Mapped(o.liveness, ProbeTree)
    else if k == "readinessProbe" then Mapped(o.readiness, ProbeTree)
    else if k == "ingressClass" then o.ingressClass
    else if k == "ingress" then o.ingress
    else if k == "resources" then o.resources
    else if k == "securityContext" then Mapped(o.security, Table())
    else if k == "podSecurityContext" then Mapped(o.podSecurity, Table())
    else None
  }

  function OrMember(entry: Option<Value>, v: map<string, Value>, k: string): Option<Value>
  {
    if entry.Some? then entry else Member(v, k)
  }

  lemma ProbesMember(v: map<string, Value>, liveness: Option<Probe>, readiness: Option<Probe>, k: string)
    ensures Member(WithProbes(v, liveness, readiness), k) ==
            OrMember(if k == "livenessProbe" then Mapped(liveness, ProbeTree)
                     else if k == "readinessProbe" then Mapped(readiness, ProbeTree) else None, v, k)
  {
  }

  lemma IngressMember(v: map<string, Value>, ingressClass: Option<Value>, ingress: Option<Value>, k: string)
    ensures Member(WithIngress(v, ingressClass, ingress), k) ==
            OrMember(if k == "ingressClass" then ingressClass else if k == "ingress" then ingress else None, v, k)
  {
  }

  lemma SecurityMember(
      v: map<string, Value>, security: Option<map<string, Value>>, podSecurity: Option<map<string, Value>>, k: string)
    ensures Member(WithSecurity(v, security, podSecurity), k) ==
            OrMember(if k == "securityContext" then Mapped(security, Table())
                     else if k == "podSecurityContext" then Mapped(podSecurity, Table()) else None, v, k)
  {
  }

  lemma OptionalMember(v: map<string, Value>, o: Optional, k: string)
    ensures Member(WithOptional(v, o), k) == OrMember(Entry(o, k), v, k)
  {
    var probed := WithProbes(v, o.liveness, o.readiness);
    var routed := WithIngress(probed, o.ingressClass, o.ingress);
    ProbesMember(v, o.liveness, o.readiness, k);
    IngressMember(probed, o.ingressClass, o.ingress, k);
    MemberOfWith(routed, "resources", o.resources, k);
    SecurityMember(With(routed, "resources", o.resources), o.security, o.podSecurity, k);
  }

  // The values of the two tiers for one document.

  function ValuesA(name: string, namespace: string, d: SpecDoc): Value
  {
    Coalesce(OperatorValues(name, namespace, Admitted(d)))
  }

  function ValuesB(name: string, namespace: string, d: SpecDoc, n: int): Value
  {
    Coalesce(HelmValues(name, namespace, d, n))
  }

  /** A key under which the chart can only find the same value on both routes. */
  predicate Shared(k: string)
  {
    k !in ["resources", "securityContext", "podSecurityContext", "ingress", "ingressClass", "pdb", "rolloutStrategy"]
  }

  lemma MemberOfSum(m: map<string, Value>, n: map<string, Value>, k: string)
    ensures Member(m + n, k) == OrMember(Member(n, k), m, k)
  {
  }

  lemma SharedBase(name: string, namespace: string, d: SpecDoc, n: int, k: string)
    requires Shared(k)
    ensures Member(FixedValues(name, namespace, Admitted(d)), k) ==
            OrMember(Member(Identity(name, namespace, n), k), RequiredTree(d), k)
  {
  }

  lemma SharedEntry(d: SpecDoc, k: string)
    requires Shared(k)
    ensures Entry(OptionalValues(Admitted(d)), k) == Entry(OptionalTree(d), k)
  {
  }

  lemma IdentityIsNoEntry(name: string, namespace: string, d: SpecDoc, n: int, k: string)
    ensures Member(Identity(name, namespace, n), k).None? || Entry(OptionalTree(d), k).None?
  {
  }

  lemma SharedMember(name: string, namespace: string, d: SpecDoc, n: int, k: string)
    requires Shared(k)
    ensures Member(OperatorValues(name, namespace, Admitted(d)), k) == Member(HelmValues(name, namespace, d, n), k)
  {
    SharedBase(name, namespace, d, n, k);
    SharedEntry(d, k);
    IdentityIsNoEntry(name, namespace, d, n, k);
    OptionalMember(FixedValues(name, namespace, Admitted(d)), OptionalValues(Admitted(d)), k);
    OptionalMember(RequiredTree(d), OptionalTree(d), k);
    MemberOfSum(SpecTree(d), Identity(name, namespace, n), k);
  }

  lemma SharedReading(name: string, namespace: string, d: SpecDoc, n: int, k: string)
    requires Shared(k)
    ensures Get(ValuesA(name, namespace, d), k) == Get(ValuesB(name, namespace, d, n), k)
  {
    SharedMember(name, namespace, d, n, k);
    ReadsCoalesced(OperatorValues(name, namespace, Admitted(d)), DEFAULTS, k);
    ReadsCoalesced(HelmValues(name, namespace, d, n), DEFAULTS, k);
  }

  /** The keys that templates read, but for the ones on which the routes differ. */
  const READ: seq<string> :=
    ["name", "namespace", "image", "port", "livenessProbe", "readinessProbe", "autoscale", "networkPolicy"]

  ghost predicate SameReadings(a: Value, b: Value)
  {
    forall i :: 0 <= i < |READ| ==> Get(a, READ[i]) == Get(b, READ[i])
  }

  lemma ReadIsShared(i: nat)
    requires i < |READ|
    ensures Shared(READ[i])
  {
  }

  lemma SharedReadings(name: string, namespace: string, d: SpecDoc, n: int)
    ensures SameReadings(ValuesA(name, namespace, d), ValuesB(name, namespace, d, n))
  {
    forall i | 0 <= i < |READ|
      ensures Get(ValuesA(name, namespace, d), READ[i]) == Get(ValuesB(name, namespace, d, n), READ[i])
    {
      ReadIsShared(i);
      SharedReading(name, namespace, d, n, READ[i]);
    }
  }

  /** Apart from the resources, the security contexts, the budget, and the Ingress, equal readings render equal
      objects. */
  lemma SharedObjects(a: Value, b: Value)
    requires SameReadings(a, b)
    ensures ServiceOf(a) == ServiceOf(b) && AutoscalerOf(a) == AutoscalerOf(b) && PoliciesOf(a) == PoliciesOf(b)
    ensures BudgetOf(a).minAvailable == BudgetOf(b).minAvailable <==> BudgetOf(a) == BudgetOf(b)
  {
    assert READ[0] == "name" && READ[1] == "namespace" && READ[3] == "port";
    assert READ[6] == "autoscale" && READ[7] == "networkPolicy";
  }

  lemma SharedDeployment(a: Value, b: Value)
    requires SameReadings(a, b)
    ensures DeploymentOf(a) == DeploymentOf(b) <==>
            && DeploymentOf(a).resources == DeploymentOf(b).resources
            && DeploymentOf(a).security == DeploymentOf(b).security
            && DeploymentOf(a).podSecurity == DeploymentOf(b).podSecurity
  {
    assert READ[0] == "name" && READ[1] == "namespace" && READ[2] == "image" && READ[3] == "port";
    assert READ[4] == "livenessProbe" && READ[5] == "readinessProbe";
  }

  /** What the chart finds under an optional key on each route. */
  lemma OptionalReadings(name: string, namespace: string, d: SpecDoc, n: int, k: string)
    requires Differing(k)
    ensures Get(ValuesA(name, namespace, d), k) == Reading(Entry(OptionalValues(Admitted(d)), k), Get(Map(DEFAULTS), k))
    ensures Get(ValuesB(name, namespace, d, n), k) == Reading(Entry(OptionalTree(d), k), Get(Map(DEFAULTS), k))
  {
    ReadsCoalesced(OperatorValues(name, namespace, Admitted(d)), DEFAULTS, k);
    ReadsCoalesced(HelmValues(name, namespace, d, n), DEFAULTS, k);
    OptionalMember(FixedValues(name, namespace, Admitted(d)), OptionalValues(Admitted(d)), k);
    OptionalMember(RequiredTree(d), OptionalTree(d), k);
    MemberOfSum(SpecTree(d), Identity(name, namespace, n), k);
    NoOtherSource(name, namespace, d, n, k);
  }

  predicate Differing(k: string)
  {
    k in ["resources", "securityContext", "podSecurityContext", "ingress", "ingressClass"]
  }

  lemma NotRequired(image: string, port: int, autoscale: Autoscale, k: string)
    requires Differing(k)
    ensures Member(Required(image, port, autoscale), k).None? && k != "rolloutStrategy"
  {
  }

  lemma NotIdentity(name: string, namespace: string, n: int, k: string)
    requires Differing(k)
    ensures Member(Identity(name, namespace, n), k).None?
  {
  }

  lemma NoOtherSource(name: string, namespace: string, d: SpecDoc, n: int, k: string)
    requires Differing(k)
    ensures Member(FixedValues(name, namespace, Admitted(d)), k).None? && Member(RequiredTree(d), k).None?
    ensures Member(Identity(name, namespace, n), k).None?
  {
    NotRequired(d.image, d.port, d.autoscale, k);
    NotIdentity(name, namespace, 1, k);
    NotIdentity(name, namespace, n, k);
    MemberOfSum(Required(d.image, d.port, d.autoscale), Identity(name, namespace, 1), k);
    MemberOfWith(Required(d.image, d.port, d.autoscale), "rolloutStrategy", Mapped(d.rolloutStrategy, Text()), k);
  }

  lemma BudgetReading(user: map<string, Value>, n: int)
    requires Member(user, "pdb") == Some(Map(map["minAvailable" := Int(n)]))
    ensures Get(Get(Coalesce(user), "pdb"), "minAvailable") == Int(n)
  {
    ReadsCoalesced(user, DEFAULTS, "pdb");
    ReadsCoalesced(map["minAvailable" := Int(n)], DEFAULTS["pdb"].entries, "minAvailable");
  }

  lemma Budgets(name: string, namespace: string, d: SpecDoc, n: int)
    ensures BudgetOf(ValuesA(name, namespace, d)).minAvailable == Int(1)
    ensures BudgetOf(ValuesB(name, namespace, d, n)).minAvailable == Int(n)
  {
    OptionalMember(FixedValues(name, namespace, Admitted(d)), OptionalValues(Admitted(d)), "pdb");
    MemberOfSum(Required(d.image, d.port, d.autoscale), Identity(name, namespace, 1), "pdb");
    MemberOfSum(SpecTree(d), Identity(name, namespace, n), "pdb");
    BudgetReading(OperatorValues(name, namespace, Admitted(d)), 1);
    BudgetReading(HelmValues(name, namespace, d, n), n);
  }

  // Resources.

  lemma TypedField(name: string, v: Option<Value>)
    ensures TypedResources(Map(Field(name, v))) == Field(name, NonEmpty(v))
  {
  }

  lemma TypedSum(m: map<string, Value>, n: map<string, Value>)
    requires m.Keys !! n.Keys
    ensures TypedResources(Map(m + n)) == TypedResources(Map(m)) + TypedResources(Map(n))
  {
  }

  /** Decoding the document's block and writing out its typed form lose the same empty lists. */
  lemma TypedTree(r: Resources)
    ensures TypedResources(ResourcesTree(r)) == ResourcesToUnstructured(r)
  {
    var requests, limits := Mapped(r.requests, Quantities()), Mapped(r.limits, Quantities());
    var claims := Mapped(r.claims, Claims());
    TypedField("requests", requests);
    TypedField("limits", limits);
    TypedField("claims", claims);
    TypedSum(Field("requests", requests), Field("limits", limits));
    TypedSum(Field("requests", requests) + Field("limits", limits), Field("claims", claims));
  }

  lemma OverlayOnNothing(user: map<string, Value>)
    ensures TypedResources(Map(Overlay(user, map[]))) == TypedResources(Map(user))
  {
  }

  lemma TypedTwice(block: Value)
    ensures TypedResources(Map(TypedResources(block))) == TypedResources(block)
  {
  }

  /** The operator drops a resources block that holds claims but no list of requests or of limits. */
  predicate ClaimsAlone(r: Resources)
  {
    r.requests.None? && r.limits.None? && r.claims.Some? && r.claims.value != []
  }

  lemma TypedReadings(r: Resources)
    ensures TypedResources(Reading(Some(ResourcesTree(r)), Map(map[]))) == ResourcesToUnstructured(r)
    ensures TypedResources(Reading(ResourcesValue(r), Map(map[]))) ==
            if ClaimsAlone(r) then map[] else ResourcesToUnstructured(r)
  {
    TypedTree(r);
    TypedTwice(ResourcesTree(r));
    OverlayOnNothing(ResourcesTree(r).entries);
    OverlayOnNothing(ResourcesToUnstructured(r));
    assert TypedResources(Map(map[])) == map[];
    NothingWrittenIff(r);
  }

  lemma DefaultResources()
    ensures Get(Map(DEFAULTS), "resources") == Map(map[])
  {
  }

  lemma ResourcesAgreeIff(name: string, namespace: string, d: SpecDoc, n: int)
    ensures DeploymentOf(ValuesA(name, namespace, d)).resources ==
            DeploymentOf(ValuesB(name, namespace, d, n)).resources
            <==> !(d.resources.Some? && ClaimsAlone(d.resources.value))
  {
    OptionalReadings(name, namespace, d, n, "resources");
    DefaultResources();
    TypedReadings(Admitted(d).resources);
    NothingWrittenIff(Admitted(d).resources);
  }

  // The security contexts.

  lemma {:induction false} TypedIdempotent(v: Value)
    ensures Typed(Typed(v)) == Typed(v)
    ensures !Omitted(v) ==> !Omitted(Typed(v))
    decreases v
  {
    match v
    case Map(m) =>
      forall k | k in m && !Omitted(m[k]) ensures Typed(Typed(m[k])) == Typed(m[k]) && !Omitted(Typed(m[k])) {
        TypedIdempotent(m[k]);
      }
      assert Typed(Typed(v)).entries == Typed(v).entries;
    case List(xs) =>
      forall i | 0 <= i < |xs| ensures Typed(Typed(xs[i])) == Typed(xs[i]) {
        TypedIdempotent(xs[i]);
      }
      assert |Typed(v).items| == |xs|;
      assert Typed(Typed(v)).items == Typed(v).items;
    case _ =>
  }

  lemma NothingOmitted(m: map<string, Value>)
    ensures Overlay(Typed(Map(m)).entries, map[]) == Typed(Map(m)).entries
  {
    forall k | k in m && !Omitted(m[k]) ensures !Omitted(Typed(m[k])) {
      TypedIdempotent(m[k]);
    }
  }

  lemma TypedOverlay(m: map<string, Value>)
    ensures Typed(Map(Overlay(m, map[]))) == Typed(Map(m))
  {
    assert Typed(Map(Overlay(m, map[]))).entries == Typed(Map(m)).entries;
  }

  /** A context with an empty list in it and nothing else: as a document it is something, as a typed object
      it is nothing. */
  predicate OnlyEmptyLists(context: map<string, Value>)
  {
    (exists k :: k in context && context[k] == List([])) && forall k :: k in context ==> Omitted(context[k])
  }

  predicate EmptiesOut(context: Option<map<string, Value>>)
  {
    context.Some? && OnlyEmptyLists(context.value)
  }

  lemma EmptiesOutIff(context: map<string, Value>)
    ensures Typed(Map(context)) == Map(map[]) <==> forall k :: k in context ==> Omitted(context[k])
    ensures OnlyEmptyLists(context) <==> Typed(Map(context)) == Map(map[]) && Overlay(context, map[]) != map[]
  {
    var typed, kept := Typed(Map(context)).entries, Overlay(context, map[]);
    assert forall k :: k in typed <==> k in context && !Omitted(context[k]);
    assert forall k :: k in kept <==> k in context && context[k] != Null;
    if k :| k in typed { assert !Omitted(context[k]); }
    if k :| k in kept { assert context[k] != Null; }
  }

  /** Both routes give a Deployment the same context, unless only one of them finds the block empty and puts
      the hardened one in its place. */
  lemma ContextsAgreeIff(context: Option<map<string, Value>>, hardened: Value)
    requires Typed(hardened) == hardened && hardened != Map(map[])
    ensures var a := Reading(Mapped(Written(context), Table()), Map(map[]));
            var b := Reading(Mapped(context, Table()), Map(map[]));
            Typed(Default(a, hardened)) == Typed(Default(b, hardened)) <==> !EmptiesOut(context)
  {
    if context.Some? {
      NothingOmitted(context.value);
      TypedOverlay(context.value);
      EmptiesOutIff(context.value);
      TypedIdempotent(Map(context.value));
    }
  }

  lemma TypedAlready(m: map<string, Value>)
    requires forall k :: k in m ==> !Omitted(m[k]) && Typed(m[k]) == m[k]
    ensures Typed(Map(m)) == Map(m)
  {
    assert Typed(Map(m)).entries == m;
  }

  lemma HardenedPodIsTyped()
    ensures Typed(HARDENED_POD) == HARDENED_POD && HARDENED_POD != Map(map[])
  {
    TypedAlready(map["type" := Str("RuntimeDefault")]);
    TypedAlready(HARDENED_POD.entries);
    assert "runAsNonRoot" in HARDENED_POD.entries;
  }

  lemma HardenedContainerIsTyped()
    ensures Typed(HARDENED_CONTAINER) == HARDENED_CONTAINER && HARDENED_CONTAINER != Map(map[])
  {
    assert Typed(List([Str("ALL")])).items == [Str("ALL")];
    TypedAlready(map["drop" := List([Str("ALL")])]);
    TypedAlready(HARDENED_CONTAINER.entries);
    assert "capabilities" in HARDENED_CONTAINER.entries;
  }

  lemma DefaultContexts()
    ensures Get(Map(DEFAULTS), "securityContext") == Map(map[]) == Get(Map(DEFAULTS), "podSecurityContext")
  {
  }

  lemma ContainersAgreeIff(name: string, namespace: string, d: SpecDoc, n: int)
    ensures DeploymentOf(ValuesA(name, namespace, d)).security == DeploymentOf(ValuesB(name, namespace, d, n)).security
            <==> !EmptiesOut(d.securityContext)
  {
    HardenedContainerIsTyped();
    OptionalReadings(name, namespace, d, n, "securityContext");
    DefaultContexts();
    ContextsAgreeIff(d.securityContext, HARDENED_CONTAINER);
  }

  lemma PodsAgreeIff(name: string, namespace: string, d: SpecDoc, n: int)
    ensures DeploymentOf(ValuesA(name, namespace, d)).podSecurity ==
            DeploymentOf(ValuesB(name, namespace, d, n)).podSecurity
            <==> !EmptiesOut(d.podSecurityContext)
  {
    HardenedPodIsTyped();
    OptionalReadings(name, namespace, d, n, "podSecurityContext");
    DefaultContexts();
    ContextsAgreeIff(d.podSecurityContext, HARDENED_POD);
  }

  // The Ingress.

  function DefaultIngress(): Value
  {
    Map(map["enabled" := Bool(false), "host" := Str(""), "path" := Str("/"), "pathType" := Str("Prefix")])
  }

  /** The block under the key once a tier's block, if it has one, overlays the default. */
  function Block(user: Option<Value>): Value
  {
    Reading(user, DefaultIngress())
  }

  lemma BlockReading(block: map<string, Value>, k: string)
    requires k in block ==> !block[k].Null? && !block[k].Map?
    ensures Get(Block(Some(Map(block))), k) == if k in block then block[k] else Get(DefaultIngress(), k)
  {
  }

  lemma TreeMember(i: IngressDoc, k: string)
    ensures Member(IngressTree(i).entries, k) ==
            if k == "enabled" && i.enabled.Some? then Some(Bool(i.enabled.value))
            else if k == "pathType" && i.pathType.Some? then Some(Str(i.pathType.value))
            else if k == "path" && i.path.Some? then Some(Str(i.path.value))
            else if k == "host" then Some(Str(i.host)) else None
  {
  }

  /** An admitted ingress block and the document's own route the same host and paths. */
  lemma SamePaths(i: IngressDoc)
    ensures var a, b := Block(Some(IngressValues(AdmittedIngress(i)))), Block(Some(IngressTree(i)));
            && Default(Get(a, "path"), Str("/")) == Default(Get(b, "path"), Str("/"))
            && Default(Get(a, "pathType"), Str("Prefix")) == Default(Get(b, "pathType"), Str("Prefix"))
  {
    TreeMember(i, "path");
    TreeMember(i, "pathType");
    BlockReading(IngressValues(AdmittedIngress(i)).entries, "path");
    BlockReading(IngressValues(AdmittedIngress(i)).entries, "pathType");
    BlockReading(IngressTree(i).entries, "path");
    BlockReading(IngressTree(i).entries, "pathType");
  }

  /** Only the operator's block says by itself that it is enabled. */
  lemma HostAndSwitch(i: IngressDoc)
    ensures var a, b := Block(Some(IngressValues(AdmittedIngress(i)))), Block(Some(IngressTree(i)));
            && Get(a, "host") == Get(b, "host")
            && Truthy(Get(a, "enabled")) && (Truthy(Get(b, "enabled")) <==> i.enabled == Some(true))
  {
    TreeMember(i, "host");
    TreeMember(i, "enabled");
    BlockReading(IngressValues(AdmittedIngress(i)).entries, "host");
    BlockReading(IngressValues(AdmittedIngress(i)).entries, "enabled");
    BlockReading(IngressTree(i).entries, "host");
    BlockReading(IngressTree(i).entries, "enabled");
  }

  function BlockA(i: Option<IngressDoc>): Value
  {
    if i.None? then DefaultIngress() else Block(Some(IngressValues(AdmittedIngress(i.value))))
  }

  function BlockB(i: Option<IngressDoc>): Value
  {
    if i.None? then DefaultIngress() else Block(Some(IngressTree(i.value)))
  }

  lemma IngressReadings(name: string, namespace: string, d: SpecDoc, n: int)
    ensures Get(ValuesA(name, namespace, d), "ingress") == BlockA(d.ingress)
    ensures Get(ValuesB(name, namespace, d, n), "ingress") == BlockB(d.ingress)
  {
    OptionalReadings(name, namespace, d, n, "ingress");
    assert Get(Map(DEFAULTS), "ingress") == DefaultIngress();
  }

  lemma SameClass(name: string, namespace: string, d: SpecDoc, n: int)
    ensures Get(ValuesA(name, namespace, d), "ingressClass") == Get(ValuesB(name, namespace, d, n), "ingressClass")
  {
    OptionalReadings(name, namespace, d, n, "ingressClass");
    assert Get(Map(DEFAULTS), "ingressClass") == Str("");
  }

  predicate SwitchedOn(d: SpecDoc)
  {
    d.ingress.Some? && d.ingress.value.enabled == Some(true)
  }

  lemma RoutedIff(name: string, namespace: string, d: SpecDoc, n: int)
    ensures Routed(ValuesA(name, namespace, d)) <==> d.ingress.Some?
    ensures Routed(ValuesB(name, namespace, d, n)) <==> SwitchedOn(d)
  {
    IngressReadings(name, namespace, d, n);
    if d.ingress.Some? {
      HostAndSwitch(d.ingress.value);
    }
  }

  lemma SameRoute(a: Value, b: Value, i: Option<IngressDoc>)
    requires SameReadings(a, b) && Get(a, "ingressClass") == Get(b, "ingressClass")
    requires Get(a, "ingress") == BlockA(i) && Get(b, "ingress") == BlockB(i)
    ensures IngressOf(a) == IngressOf(b)
  {
    assert READ[0] == "name" && READ[1] == "namespace" && READ[3] == "port";
    if i.Some? {
      SamePaths(i.value);
      HostAndSwitch(i.value);
    }
  }

  lemma SameIngress(name: string, namespace: string, d: SpecDoc, n: int)
    ensures IngressOf(ValuesA(name, namespace, d)) == IngressOf(ValuesB(name, namespace, d, n))
  {
    SharedReadings(name, namespace, d, n);
    SameClass(name, namespace, d, n);
    IngressReadings(name, namespace, d, n);
    SameRoute(ValuesA(name, namespace, d), ValuesB(name, namespace, d, n), d.ingress);
  }

  // The two sets of objects.

  lemma RenderedObjects(v: Value, m: Manifest)
    requires m in Render(v)
    ensures m.Deployment? ==> m == DeploymentOf(v)
    ensures m.DisruptionBudget? ==> m == BudgetOf(v)
    ensures m.Ingress? ==> Routed(v)
  {
  }

  lemma SameRenderingIff(a: Value, b: Value)
    requires ServiceOf(a) == ServiceOf(b) && AutoscalerOf(a) == AutoscalerOf(b) && PoliciesOf(a) == PoliciesOf(b)
    requires IngressOf(a) == IngressOf(b)
    ensures Render(a) == Render(b) <==>
            DeploymentOf(a) == DeploymentOf(b) && BudgetOf(a) == BudgetOf(b) && (Routed(a) <==> Routed(b))
  {
    if Render(a) == Render(b) {
      RenderedObjects(b, DeploymentOf(a));
      RenderedObjects(b, BudgetOf(a));
      assert Routed(a) ==> IngressOf(a) in Render(b);
      assert Routed(b) ==> IngressOf(b) in Render(a);
    }
  }

  /** When the budget knob has its default, the ingress block (if any) switches itself on, no block of
      claims stands alone, and no security context holds nothing but empty lists. */
  predicate Aligned(d: SpecDoc, n: int)
  {
    && n == 1 && (d.ingress.Some? ==> SwitchedOn(d)) && !(d.resources.Some? && ClaimsAlone(d.resources.value))
    && !EmptiesOut(d.securityContext) && !EmptiesOut(d.podSecurityContext)
  }

  /** The two tiers render the same objects from a document exactly when it is aligned. An aligned document
      with an ingress block says `enabled`, which the CRD does not declare: see ParityOfDeclaredIff. */
  lemma ParityIff(name: string, namespace: string, d: SpecDoc, n: int)
    ensures TierA(name, namespace, d) == TierB(name, namespace, d, n) <==> Aligned(d, n)
  {
    var a, b := ValuesA(name, namespace, d), ValuesB(name, namespace, d, n);
    SharedReadings(name, namespace, d, n);
    SharedObjects(a, b);
    SharedDeployment(a, b);
    Budgets(name, namespace, d, n);
    ResourcesAgreeIff(name, namespace, d, n);
    ContainersAgreeIff(name, namespace, d, n);
    PodsAgreeIff(name, namespace, d, n);
    RoutedIff(name, namespace, d, n);
    SameIngress(name, namespace, d, n);
    SameRenderingIff(a, b);
  }

  /** The fields of the document that the CRD declares. Tier A applies its Workload on the server side, where a
      field that is not declared is refused, so only such documents can be deployed in either tier. */
  predicate Declared(d: SpecDoc)
  {
    d.ingress.Some? ==> d.ingress.value.enabled.None?
  }

  /** From a document that both tiers accept they render the same objects exactly when it routes nothing, the
      budget knob has its default, no block of claims stands alone and no context empties out. */
  lemma ParityOfDeclaredIff(name: string, namespace: string, d: SpecDoc, n: int)
    requires Declared(d)
    ensures TierA(name, namespace, d) == TierB(name, namespace, d, n) <==> d.ingress.None? && Aligned(d, n)
  {
    ParityIff(name, namespace, d, n);
  }

  /** Where the code comes apart: an empty list of supplemental groups, in an otherwise aligned document. Tier A
      renders the hardened context, tier B one in which nothing is set. */
  lemma EmptyListHardensOneTier(name: string, namespace: string, d: SpecDoc, n: int)
    requires d.podSecurityContext == Some(map["supplementalGroups" := List([])])
    ensures DeploymentOf(ValuesA(name, namespace, d)).podSecurity == HARDENED_POD
    ensures DeploymentOf(ValuesB(name, namespace, d, n)).podSecurity == Map(map[])
    ensures TierA(name, namespace, d) != TierB(name, namespace, d, n)
  {
    var context := map["supplementalGroups" := List([])];
    assert context["supplementalGroups"] == List([]) && OnlyEmptyLists(context);
    ParityIff(name, namespace, d, n);
    EmptiesOutIff(context);
    EmptyContext(name, namespace, d, n);
  }

  lemma EmptyContext(name: string, namespace: string, d: SpecDoc, n: int)
    requires EmptiesOut(d.podSecurityContext)
    ensures DeploymentOf(ValuesA(name, namespace, d)).podSecurity == HARDENED_POD
    ensures DeploymentOf(ValuesB(name, namespace, d, n)).podSecurity == Map(map[])
  {
    HardenedPodIsTyped();
    OptionalReadings(name, namespace, d, n, "podSecurityContext");
    DefaultContexts();
    EmptiedReadings(d.podSecurityContext, HARDENED_POD);
  }

  lemma EmptiedReadings(context: Option<map<string, Value>>, hardened: Value)
    requires EmptiesOut(context) && Typed(hardened) == hardened
    ensures Typed(Default(Reading(Mapped(Written(context), Table()), Map(map[])), hardened)) == hardened
    ensures Typed(Default(Reading(Mapped(context, Table()), Map(map[])), hardened)) == Map(map[])
  {
    NothingOmitted(context.value);
    TypedOverlay(context.value);
    EmptiesOutIff(context.value);
  }

  /** An ingress block that does not switch itself on is all that sets an otherwise aligned document's
      tiers apart: tier A has one Ingress more, and tier B none. */
  lemma IngressIsTheDifference(name: string, namespace: string, d: SpecDoc, n: int)
    requires d.ingress.Some? && !SwitchedOn(d) && Aligned(d.(ingress := None), n)
    ensures var ingress := IngressOf(ValuesA(name, namespace, d));
            && TierA(name, namespace, d) == TierB(name, namespace, d, n) + {ingress} && ingress.Ingress?
            && forall m :: m in TierB(name, namespace, d, n) ==> !m.Ingress?
  {
    var a, b := ValuesA(name, namespace, d), ValuesB(name, namespace, d, n);
    SharedReadings(name, namespace, d, n);
    SharedObjects(a, b);
    SharedDeployment(a, b);
    Budgets(name, namespace, d, n);
    ResourcesAgreeIff(name, namespace, d, n);
    ContainersAgreeIff(name, namespace, d, n);
    PodsAgreeIff(name, namespace, d, n);
    RoutedIff(name, namespace, d, n);
    OneMoreObject(a, b);
  }

  lemma OneMoreObject(a: Value, b: Value)
    requires ServiceOf(a) == ServiceOf(b) && AutoscalerOf(a) == AutoscalerOf(b) && PoliciesOf(a) == PoliciesOf(b)
    requires DeploymentOf(a) == DeploymentOf(b) && BudgetOf(a) == BudgetOf(b) && Routed(a) && !Routed(b)
    ensures Render(a) == Render(b) + {IngressOf(a)}
    ensures forall m :: m in Render(b) ==> !m.Ingress?
  {
    forall m | m in Render(b) ensures !m.Ingress? {
      RenderedObjects(b, m);
    }
  }
}
