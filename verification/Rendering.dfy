/** What each route renders, object by object and field by field: from the Workload spec in tier A
    (operator/internal/render/render.go), from the document in tier B, through the chart's templates. */
module Rendering {
  import opened Values
  import opened Workloads
  import opened Chart
  import opened Tiers
  import opened Parity

  /** A route's host, path and path type. */
  datatype Route = Route(host: string, path: string, pathType: string)

  /** A probe is rendered when it has a path. */
  function ProbeAt(probe: Option<Probe>): Option<(Value, Value)>
  {
    if probe == None || probe.value.path == "" then None else Some((Str(probe.value.path), Int(probe.value.port)))
  }

  function QuantitiesOf(m: map<string, string>): Value
  {
    Map(map k | k in m :: Str(m[k]))
  }

  function NamesOf(s: seq<string>): Value
  {
    List(seq(|s|, i requires 0 <= i < |s| => Str(s[i])))
  }

  /** The lists of requests, limits and claims that are not empty. */
  function ListsOf(r: Resources): map<string, Value>
  {
    (if r.requests == None || r.requests.value == map[] then map[]
     else map["requests" := QuantitiesOf(r.requests.value)])
    + (if r.limits == None || r.limits.value == map[] then map[] else map["limits" := QuantitiesOf(r.limits.value)])
    + (if r.claims == None || r.claims.value == [] then map[] else map["claims" := NamesOf(r.claims.value)])
  }

  /** The operator passes no list on when there is none of requests or of limits. */
  function PassedOn(r: Resources): map<string, Value>
  {
    if r.requests == None && r.limits == None then map[] else ListsOf(r)
  }

  /** The objects of a workload. Besides the Ingress each kind is always there; the network policies
      block the metadata address. */
  function ObjectsOf(
      name: string, namespace: string, image: string, port: int, a: Autoscale, liveness: Option<Probe>,
      readiness: Option<Probe>, resources: map<string, Value>, podSecurity: Value, security: Value, budget: int,
      ingressClass: string, route: Option<Route>)
    : set<Manifest>
  {
    var n, ns := Str(name), Str(namespace);
    {Deployment(n, ns, Str(image), Int(port), podSecurity, security, ProbeAt(liveness), ProbeAt(readiness), resources),
     Service(n, ns, Int(port)),
     Autoscaler(n, ns, Int(a.minReplicas), Int(a.maxReplicas), Int(a.targetCPUUtilization)),
     DisruptionBudget(n, ns, Int(budget)),
     DefaultDeny(n, ns),
     AllowOwnPort(n, ns, Int(port), Str("169.254.169.254/32"))}
    + (if route == None then {}
       else
         {Ingress(n, ns, if ingressClass == "" then None else Some(Str(ingressClass)), Str(route.value.host),
                  Str(route.value.path), Str(route.value.pathType), Int(port))})
  }

  // Readings that are not optional.

  predicate Plain(k: string)
  {
    k in ["name", "namespace", "image", "port", "autoscale", "pdb", "networkPolicy"]
  }

  function PlainMember(
      name: string, namespace: string, image: string, port: int, a: Autoscale, budget: int, k: string): Option<Value>
  {
    if k == "name" then Some(Str(name))
    else if k == "namespace" then Some(Str(namespace))
    else if k == "pdb" then Some(Map(map["minAvailable" := Int(budget)]))
    else if k == "image" then Some(Str(image))
    else if k == "port" then Some(Int(port))
    else if k == "autoscale" then Some(AutoscaleTree(a))
    else None
  }

  lemma RequiredMember(image: string, port: int, a: Autoscale, k: string)
    ensures Member(Required(image, port, a), k) ==
            if k == "image" then Some(Str(image))
            else if k == "port" then Some(Int(port))
            else if k == "autoscale" then Some(AutoscaleTree(a))
            else None
  {
  }

  lemma IdentityMember(name: string, namespace: string, budget: int, k: string)
    ensures Member(Identity(name, namespace, budget), k) ==
            if k == "name" then Some(Str(name))
            else if k == "namespace" then Some(Str(namespace))
            else if k == "pdb" then Some(Map(map["minAvailable" := Int(budget)]))
            else None
  {
  }

  lemma NoEntry(o: Optional, k: string)
    requires Plain(k)
    ensures Entry(o, k) == None && k != "rolloutStrategy"
  {
  }

  lemma OperatorPlain(name: string, namespace: string, spec: WorkloadSpec, k: string)
    requires Plain(k)
    ensures Member(OperatorValues(name, namespace, spec), k) ==
            PlainMember(name, namespace, spec.image, spec.port, spec.autoscale, 1, k)
  {
    OptionalMember(FixedValues(name, namespace, spec), OptionalValues(spec), k);
    NoEntry(OptionalValues(spec), k);
    MemberOfSum(Required(spec.image, spec.port, spec.autoscale), Identity(name, namespace, 1), k);
    RequiredMember(spec.image, spec.port, spec.autoscale, k);
    IdentityMember(name, namespace, 1, k);
  }

  lemma HelmPlain(name: string, namespace: string, d: SpecDoc, n: int, k: string)
    requires Plain(k)
    ensures Member(HelmValues(name, namespace, d, n), k) ==
            PlainMember(name, namespace, d.image, d.port, d.autoscale, n, k)
  {
    OptionalMember(RequiredTree(d), OptionalTree(d), k);
    NoEntry(OptionalTree(d), k);
    MemberOfWith(Required(d.image, d.port, d.autoscale), "rolloutStrategy", Mapped(d.rolloutStrategy, Text()), k);
    MemberOfSum(SpecTree(d), Identity(name, namespace, n), k);
    RequiredMember(d.image, d.port, d.autoscale, k);
    IdentityMember(name, namespace, n, k);
  }

  ghost predicate Supplies(
      user: map<string, Value>, name: string, namespace: string, image: string, port: int, a: Autoscale, budget: int)
  {
    forall k :: Plain(k) ==> Member(user, k) == PlainMember(name, namespace, image, port, a, budget, k)
  }

  lemma PlainKeys()
    ensures Plain("name") && Plain("namespace") && Plain("image") && Plain("port")
    ensures Plain("autoscale") && Plain("pdb") && Plain("networkPolicy")
  {
  }

  lemma PlainMembers(name: string, namespace: string, image: string, port: int, a: Autoscale, budget: int)
    ensures PlainMember(name, namespace, image, port, a, budget, "name") == Some(Str(name))
    ensures PlainMember(name, namespace, image, port, a, budget, "namespace") == Some(Str(namespace))
    ensures PlainMember(name, namespace, image, port, a, budget, "image") == Some(Str(image))
    ensures PlainMember(name, namespace, image, port, a, budget, "port") == Some(Int(port))
    ensures PlainMember(name, namespace, image, port, a, budget, "autoscale") == Some(AutoscaleTree(a))
    ensures PlainMember(name, namespace, image, port, a, budget, "pdb") ==
            Some(Map(map["minAvailable" := Int(budget)]))
    ensures PlainMember(name, namespace, image, port, a, budget, "networkPolicy") == None
  {
  }

  lemma PlainIs(
      user: map<string, Value>, name: string, namespace: string, image: string, port: int, a: Autoscale, budget: int)
    requires Supplies(user, name, namespace, image, port, a, budget)
    ensures Member(user, "name") == Some(Str(name)) && Member(user, "namespace") == Some(Str(namespace))
    ensures Member(user, "image") == Some(Str(image)) && Member(user, "port") == Some(Int(port))
    ensures Member(user, "autoscale") == Some(AutoscaleTree(a))
    ensures Member(user, "pdb") == Some(Map(map["minAvailable" := Int(budget)]))
    ensures Member(user, "networkPolicy") == None
  {
    PlainKeys();
    PlainMembers(name, namespace, image, port, a, budget);
  }

  lemma ScalarReading(user: map<string, Value>, k: string, x: Value)
    requires Member(user, k) == Some(x) && !x.Map?
    ensures Get(Coalesce(user), k) == x
  {
    ReadsCoalesced(user, DEFAULTS, k);
  }

  lemma TableReading(user: map<string, Value>, k: string, table: map<string, Value>, inner: string, x: Value)
    requires Member(user, k) == Some(Map(table)) && Member(table, inner) == Some(x) && !x.Map?
    requires !x.Null?
    ensures Get(Get(Coalesce(user), k), inner) == x
  {
    ReadsCoalesced(user, DEFAULTS, k);
    if Get(Map(DEFAULTS), k).Map? {
      ReadsCoalesced(table, Get(Map(DEFAULTS), k).entries, inner);
    }
  }

  lemma Identified(
      user: map<string, Value>, name: string, namespace: string, image: string, port: int, a: Autoscale, budget: int)
    requires Supplies(user, name, namespace, image, port, a, budget)
    ensures var v := Coalesce(user);
            && Get(v, "name") == Str(name) && Get(v, "namespace") == Str(namespace)
            && Get(v, "image") == Str(image) && Get(v, "port") == Int(port)
  {
    PlainIs(user, name, namespace, image, port, a, budget);
    ScalarReading(user, "name", Str(name));
    ScalarReading(user, "namespace", Str(namespace));
    ScalarReading(user, "image", Str(image));
    ScalarReading(user, "port", Int(port));
  }

  lemma TreeOf(a: Autoscale)
    ensures var tree := AutoscaleTree(a).entries;
            && Member(tree, "minReplicas") == Some(Int(a.minReplicas))
            && Member(tree, "maxReplicas") == Some(Int(a.maxReplicas))
            && Member(tree, "targetCPUUtilization") == Some(Int(a.targetCPUUtilization))
  {
  }

  lemma Scaled(
      user: map<string, Value>, name: string, namespace: string, image: string, port: int, a: Autoscale, budget: int)
    requires Supplies(user, name, namespace, image, port, a, budget)
    ensures var autoscale := Get(Coalesce(user), "autoscale");
            && Get(autoscale, "minReplicas") == Int(a.minReplicas)
            && Get(autoscale, "maxReplicas") == Int(a.maxReplicas)
            && Get(autoscale, "targetCPUUtilization") == Int(a.targetCPUUtilization)
    ensures Get(Get(Coalesce(user), "pdb"), "minAvailable") == Int(budget)
  {
    var tree := AutoscaleTree(a).entries;
    TreeOf(a);
    PlainIs(user, name, namespace, image, port, a, budget);
    TableReading(user, "autoscale", tree, "minReplicas", Int(a.minReplicas));
    TableReading(user, "autoscale", tree, "maxReplicas", Int(a.maxReplicas));
    TableReading(user, "autoscale", tree, "targetCPUUtilization", Int(a.targetCPUUtilization));
    TableReading(user, "pdb", map["minAvailable" := Int(budget)], "minAvailable", Int(budget));
  }

  lemma PolicyOn(user: map<string, Value>)
    requires Member(user, "networkPolicy") == None
    ensures var policy := Get(Coalesce(user), "networkPolicy");
            Get(policy, "enabled") == Bool(true) && Get(policy, "metadataIP") == Str("169.254.169.254/32")
  {
    ReadsCoalesced(user, DEFAULTS, "networkPolicy");
  }

  // Optional readings.

  lemma ProbeReads(probe: Option<Probe>)
    ensures ProbeBlock(Reading(Mapped(probe, ProbeTree), Map(map[]))) == ProbeAt(probe)
  {
    if probe.Some? {
      var tree := ProbeTree(probe.value).entries;
      assert Member(tree, "path") == Some(Str(probe.value.path)) && Member(tree, "port") == Some(Int(probe.value.port));
      ReadsCoalesced(tree, map[], "path");
      ReadsCoalesced(tree, map[], "port");
      assert "path" in Overlay(tree, map[]);
    }
  }

  lemma ClassReads(ingressClass: Option<Value>, text: string)
    requires ingressClass == (if text == "" then None else Some(Str(text))) || ingressClass == Some(Str(text))
    ensures Reading(ingressClass, Str("")) == Str(text)
  {
  }

  lemma ListsWritten(r: Resources)
    ensures ResourcesToUnstructured(r) == ListsOf(r)
  {
    if r.requests.Some? { QuantitiesTruthy(r.requests.value); }
    if r.limits.Some? { QuantitiesTruthy(r.limits.value); }
    if r.claims.Some? { NamesTruthy(r.claims.value); }
  }

  lemma PassedReads(r: Resources)
    ensures TypedResources(Reading(ResourcesValue(r), Map(map[]))) == PassedOn(r)
  {
    TypedReadings(r);
    ListsWritten(r);
    if r.requests == None && r.limits == None && !ClaimsAlone(r) {
      assert ListsOf(r) == map[];
    }
  }

  lemma QuantitiesTruthy(m: map<string, string>)
    ensures Quantities()(m) == QuantitiesOf(m)
    ensures Truthy(QuantitiesOf(m)) <==> m != map[]
  {
    if m != map[] {
      var k :| k in m;
      assert k in QuantitiesOf(m).entries;
    }
  }

  lemma NamesTruthy(s: seq<string>)
    ensures Claims()(s) == NamesOf(s)
    ensures Truthy(NamesOf(s)) <==> s != []
  {
    assert Claims()(s).items == NamesOf(s).items;
    assert |NamesOf(s).items| == |s|;
  }

  /** The operator replaces a context in which nothing but nulls and empty lists is set by the hardened one. */
  function OperatorContext(context: Option<map<string, Value>>, hardened: Value): Value
  {
    if context == None || forall k :: k in context.value ==> context.value[k] in {Null, List([])}
    then hardened
    else Typed(Map(context.value))
  }

  /** Helm only one in which nothing but nulls is set. */
  function HelmContext(context: Option<map<string, Value>>, hardened: Value): Value
  {
    if context == None || forall k :: k in context.value ==> context.value[k] == Null
    then hardened
    else Typed(Map(context.value))
  }

  lemma OperatorContextReads(context: Option<map<string, Value>>, hardened: Value)
    requires Typed(hardened) == hardened
    ensures Typed(Default(Reading(Mapped(Written(context), Table()), Map(map[])), hardened)) ==
            OperatorContext(context, hardened)
  {
    if context.Some? {
      NothingOmitted(context.value);
      EmptiesOutIff(context.value);
      TypedIdempotent(Map(context.value));
    }
  }

  lemma HelmContextReads(context: Option<map<string, Value>>, hardened: Value)
    requires Typed(hardened) == hardened
    ensures Typed(Default(Reading(Mapped(context, Table()), Map(map[])), hardened)) == HelmContext(context, hardened)
  {
    if context.Some? {
      TypedOverlay(context.value);
      assert forall k :: k in Overlay(context.value, map[]) <==> k in context.value && context.value[k] != Null;
    }
  }

  lemma OperatorPodReads(context: Option<map<string, Value>>)
    ensures Typed(Default(Reading(Mapped(Written(context), Table()), Map(map[])), HARDENED_POD)) ==
            OperatorContext(context, HARDENED_POD)
  {
    HardenedPodIsTyped();
    OperatorContextReads(context, HARDENED_POD);
  }

  lemma OperatorContainerReads(context: Option<map<string, Value>>)
    ensures Typed(Default(Reading(Mapped(Written(context), Table()), Map(map[])), HARDENED_CONTAINER)) ==
            OperatorContext(context, HARDENED_CONTAINER)
  {
    HardenedContainerIsTyped();
    OperatorContextReads(context, HARDENED_CONTAINER);
  }

  lemma HelmPodReads(context: Option<map<string, Value>>)
    ensures Typed(Default(Reading(Mapped(context, Table()), Map(map[])), HARDENED_POD)) ==
            HelmContext(context, HARDENED_POD)
  {
    HardenedPodIsTyped();
    HelmContextReads(context, HARDENED_POD);
  }

  lemma HelmContainerReads(context: Option<map<string, Value>>)
    ensures Typed(Default(Reading(Mapped(context, Table()), Map(map[])), HARDENED_CONTAINER)) ==
            HelmContext(context, HARDENED_CONTAINER)
  {
    HardenedContainerIsTyped();
    HelmContextReads(context, HARDENED_CONTAINER);
  }

  /** What a typed object keeps of a document: no nulls and no empty lists, and everything else. */
  lemma TypedMember(context: map<string, Value>, k: string)
    ensures k in Typed(Map(context)).entries <==> k in context && context[k] != Null && context[k] != List([])
    ensures k in Typed(Map(context)).entries && !context[k].Map? && !context[k].List? ==>
              Typed(Map(context)).entries[k] == context[k]
  {
  }

  function OrSlash(path: string): string
  {
    if path == "" then "/" else path
  }

  function OrPrefix(pathType: string): string
  {
    if pathType == "" then "Prefix" else pathType
  }

  ghost predicate RoutesTo(block: Value, host: string, path: string, pathType: string)
  {
    && Get(block, "host") == Str(host)
    && Default(Get(block, "path"), Str("/")) == Str(path)
    && Default(Get(block, "pathType"), Str("Prefix")) == Str(pathType)
  }

  lemma OperatorBlock(i: IngressConfig)
    ensures var block := Block(Some(IngressValues(i)));
            Truthy(Get(block, "enabled")) && RoutesTo(block, i.host, OrSlash(i.path), OrPrefix(i.pathType))
  {
    BlockReading(IngressValues(i).entries, "enabled");
    BlockReading(IngressValues(i).entries, "host");
    BlockReading(IngressValues(i).entries, "path");
    BlockReading(IngressValues(i).entries, "pathType");
  }

  lemma HelmBlock(i: IngressDoc)
    ensures var block := Block(Some(IngressTree(i)));
            && (Truthy(Get(block, "enabled")) <==> i.enabled == Some(true))
            && RoutesTo(block, i.host, if i.path == None then "/" else OrSlash(i.path.value),
                        if i.pathType == None then "Prefix" else OrPrefix(i.pathType.value))
  {
    TreeMember(i, "enabled");
    TreeMember(i, "host");
    TreeMember(i, "path");
    TreeMember(i, "pathType");
    BlockReading(IngressTree(i).entries, "enabled");
    BlockReading(IngressTree(i).entries, "host");
    BlockReading(IngressTree(i).entries, "path");
    BlockReading(IngressTree(i).entries, "pathType");
  }

  // The objects.

  ghost predicate ReadsPlain(
      v: Value, name: string, namespace: string, image: string, port: int, a: Autoscale, budget: int)
  {
    && Get(v, "name") == Str(name) && Get(v, "namespace") == Str(namespace)
    && Get(v, "image") == Str(image) && Get(v, "port") == Int(port)
    && Get(Get(v, "autoscale"), "minReplicas") == Int(a.minReplicas)
    && Get(Get(v, "autoscale"), "maxReplicas") == Int(a.maxReplicas)
    && Get(Get(v, "autoscale"), "targetCPUUtilization") == Int(a.targetCPUUtilization)
    && Get(Get(v, "pdb"), "minAvailable") == Int(budget)
    && Get(Get(v, "networkPolicy"), "enabled") == Bool(true)
    && Get(Get(v, "networkPolicy"), "metadataIP") == Str("169.254.169.254/32")
  }

  lemma SuppliedReads(
      user: map<string, Value>, name: string, namespace: string, image: string, port: int, a: Autoscale, budget: int)
    requires Supplies(user, name, namespace, image, port, a, budget)
    ensures ReadsPlain(Coalesce(user), name, namespace, image, port, a, budget)
  {
    PlainIs(user, name, namespace, image, port, a, budget);
    Identified(user, name, namespace, image, port, a, budget);
    Scaled(user, name, namespace, image, port, a, budget);
    PolicyOn(user);
  }

  lemma PlainObjects(v: Value, name: string, namespace: string, image: string, port: int, a: Autoscale, budget: int)
    requires ReadsPlain(v, name, namespace, image, port, a, budget)
    ensures var n, ns := Str(name), Str(namespace);
            && ServiceOf(v) == Service(n, ns, Int(port))
            && AutoscalerOf(v) ==
               Autoscaler(n, ns, Int(a.minReplicas), Int(a.maxReplicas), Int(a.targetCPUUtilization))
            && BudgetOf(v) == DisruptionBudget(n, ns, Int(budget))
            && PoliciesOf(v) ==
               {DefaultDeny(n, ns), AllowOwnPort(n, ns, Int(port), Str("169.254.169.254/32"))}
  {
  }

  /** The readings of the templates under the keys that a user may leave out. */
  ghost predicate Reads(
      v: Value, liveness: Option<Probe>, readiness: Option<Probe>, resources: map<string, Value>, podSecurity: Value,
      security: Value)
  {
    && ProbeBlock(Get(v, "livenessProbe")) == ProbeAt(liveness)
    && ProbeBlock(Get(v, "readinessProbe")) == ProbeAt(readiness)
    && TypedResources(Get(v, "resources")) == resources
    && Typed(Default(Get(v, "podSecurityContext"), HARDENED_POD)) == podSecurity
    && Typed(Default(Get(v, "securityContext"), HARDENED_CONTAINER)) == security
  }

  ghost predicate ReadsRoute(v: Value, ingressClass: string, route: Option<Route>)
  {
    && Get(v, "ingressClass") == Str(ingressClass)
    && (Truthy(Get(Get(v, "ingress"), "enabled")) <==> route.Some?)
    && (route.Some? ==> RoutesTo(Get(v, "ingress"), route.value.host, route.value.path, route.value.pathType))
  }

  lemma DeploymentIs(
      v: Value, liveness: Option<Probe>, readiness: Option<Probe>, resources: map<string, Value>, podSecurity: Value,
      security: Value)
    requires Reads(v, liveness, readiness, resources, podSecurity, security)
    ensures DeploymentOf(v) ==
            Deployment(Get(v, "name"), Get(v, "namespace"), Get(v, "image"), Get(v, "port"), podSecurity, security,
                       ProbeAt(liveness), ProbeAt(readiness), resources)
  {
  }

  lemma IngressIs(v: Value, ingressClass: string, route: Option<Route>)
    requires ReadsRoute(v, ingressClass, route)
    ensures Routed(v) <==> route.Some?
    ensures route.Some? ==>
              IngressOf(v) ==
              Ingress(Get(v, "name"), Get(v, "namespace"), if ingressClass == "" then None else Some(Str(ingressClass)),
                      Str(route.value.host), Str(route.value.path), Str(route.value.pathType), Get(v, "port"))
  {
  }

  lemma Assembled(
      v: Value, name: string, namespace: string, image: string, port: int, a: Autoscale, liveness: Option<Probe>,
      readiness: Option<Probe>, resources: map<string, Value>, podSecurity: Value, security: Value, budget: int,
      ingressClass: string, route: Option<Route>)
    requires ReadsPlain(v, name, namespace, image, port, a, budget)
    requires Reads(v, liveness, readiness, resources, podSecurity, security)
    requires ReadsRoute(v, ingressClass, route)
    ensures Render(v) ==
            ObjectsOf(name, namespace, image, port, a, liveness, readiness, resources, podSecurity, security, budget,
                      ingressClass, route)
  {
    PlainObjects(v, name, namespace, image, port, a, budget);
    DeploymentIs(v, liveness, readiness, resources, podSecurity, security);
    IngressIs(v, ingressClass, route);
  }

  lemma OptionalKeys()
    ensures Differing("resources") && Differing("securityContext") && Differing("podSecurityContext")
    ensures Differing("ingress") && Differing("ingressClass")
  {
  }

  /** A probe is supplied by the optional entries alone. */
  predicate IsProbe(k: string)
  {
    k in ["livenessProbe", "readinessProbe"]
  }

  lemma NoBase(image: string, port: int, a: Autoscale, name: string, namespace: string, budget: int, k: string)
    requires IsProbe(k) || Differing(k)
    ensures Member(Required(image, port, a), k) == None && Member(Identity(name, namespace, budget), k) == None
    ensures k != "rolloutStrategy"
  {
  }

  lemma OperatorReading(name: string, namespace: string, spec: WorkloadSpec, k: string)
    requires IsProbe(k) || Differing(k)
    ensures Get(Coalesce(OperatorValues(name, namespace, spec)), k) ==
            Reading(Entry(OptionalValues(spec), k), Get(Map(DEFAULTS), k))
  {
    NoBase(spec.image, spec.port, spec.autoscale, name, namespace, 1, k);
    MemberOfSum(Required(spec.image, spec.port, spec.autoscale), Identity(name, namespace, 1), k);
    OptionalMember(FixedValues(name, namespace, spec), OptionalValues(spec), k);
    ReadsCoalesced(OperatorValues(name, namespace, spec), DEFAULTS, k);
  }

  lemma HelmReading(name: string, namespace: string, d: SpecDoc, n: int, k: string)
    requires IsProbe(k) || Differing(k)
    ensures Get(Coalesce(HelmValues(name, namespace, d, n)), k) ==
            Reading(Entry(OptionalTree(d), k), Get(Map(DEFAULTS), k))
  {
    NoBase(d.image, d.port, d.autoscale, name, namespace, n, k);
    MemberOfWith(Required(d.image, d.port, d.autoscale), "rolloutStrategy", Mapped(d.rolloutStrategy, Text()), k);
    OptionalMember(RequiredTree(d), OptionalTree(d), k);
    MemberOfSum(SpecTree(d), Identity(name, namespace, n), k);
    ReadsCoalesced(HelmValues(name, namespace, d, n), DEFAULTS, k);
  }

  lemma Defaults()
    ensures var v := Map(DEFAULTS);
            && Get(v, "livenessProbe") == Get(v, "readinessProbe") == Map(map[])
            && Get(v, "resources") == Get(v, "securityContext") == Get(v, "podSecurityContext") == Map(map[])
            && Get(v, "ingressClass") == Str("") && Get(v, "ingress") == DefaultIngress()
  {
  }

  lemma Entries(o: Optional)
    ensures Entry(o, "livenessProbe") == Mapped(o.liveness, ProbeTree)
    ensures Entry(o, "readinessProbe") == Mapped(o.readiness, ProbeTree)
    ensures Entry(o, "resources") == o.resources
    ensures Entry(o, "securityContext") == Mapped(o.security, Table())
    ensures Entry(o, "podSecurityContext") == Mapped(o.podSecurity, Table())
    ensures Entry(o, "ingressClass") == o.ingressClass && Entry(o, "ingress") == o.ingress
  {
  }

  /** What the templates read under the optional keys. */
  ghost predicate ReadsOptional(v: Value, o: Optional)
  {
    && Get(v, "livenessProbe") == Reading(Mapped(o.liveness, ProbeTree), Map(map[]))
    && Get(v, "readinessProbe") == Reading(Mapped(o.readiness, ProbeTree), Map(map[]))
    && Get(v, "resources") == Reading(o.resources, Map(map[]))
    && Get(v, "securityContext") == Reading(Mapped(o.security, Table()), Map(map[]))
    && Get(v, "podSecurityContext") == Reading(Mapped(o.podSecurity, Table()), Map(map[]))
    && Get(v, "ingressClass") == Reading(o.ingressClass, Str(""))
    && Get(v, "ingress") == Reading(o.ingress, DefaultIngress())
  }

  lemma OptionalReads(v: Value, o: Optional)
    requires forall k :: IsProbe(k) || Differing(k) ==> Get(v, k) == Reading(Entry(o, k), Get(Map(DEFAULTS), k))
    ensures ReadsOptional(v, o)
  {
    assert IsProbe("livenessProbe") && IsProbe("readinessProbe");
    OptionalKeys();
    Defaults();
    Entries(o);
  }

  lemma OperatorReadsOptional(name: string, namespace: string, spec: WorkloadSpec)
    ensures ReadsOptional(Coalesce(OperatorValues(name, namespace, spec)), OptionalValues(spec))
  {
    var v, o := Coalesce(OperatorValues(name, namespace, spec)), OptionalValues(spec);
    forall k | IsProbe(k) || Differing(k) ensures Get(v, k) == Reading(Entry(o, k), Get(Map(DEFAULTS), k)) {
      OperatorReading(name, namespace, spec, k);
    }
    OptionalReads(v, o);
  }

  lemma HelmReadsOptional(name: string, namespace: string, d: SpecDoc, n: int)
    ensures ReadsOptional(Coalesce(HelmValues(name, namespace, d, n)), OptionalTree(d))
  {
    var v, o := Coalesce(HelmValues(name, namespace, d, n)), OptionalTree(d);
    forall k | IsProbe(k) || Differing(k) ensures Get(v, k) == Reading(Entry(o, k), Get(Map(DEFAULTS), k)) {
      HelmReading(name, namespace, d, n, k);
    }
    OptionalReads(v, o);
  }

  lemma OperatorReads(v: Value, spec: WorkloadSpec)
    requires ReadsOptional(v, OptionalValues(spec))
    ensures Reads(v, spec.livenessProbe, spec.readinessProbe,
                  PassedOn(spec.resources),
                  OperatorContext(spec.podSecurityContext, HARDENED_POD),
                  OperatorContext(spec.securityContext, HARDENED_CONTAINER))
  {
    ProbeReads(spec.livenessProbe);
    ProbeReads(spec.readinessProbe);
    PassedReads(spec.resources);
    OperatorPodReads(spec.podSecurityContext);
    OperatorContainerReads(spec.securityContext);
  }

  lemma HelmReads(v: Value, d: SpecDoc)
    requires ReadsOptional(v, OptionalTree(d))
    ensures Reads(v, d.livenessProbe, d.readinessProbe,
                  if d.resources == None then map[] else ListsOf(d.resources.value),
                  HelmContext(d.podSecurityContext, HARDENED_POD),
                  HelmContext(d.securityContext, HARDENED_CONTAINER))
  {
    ProbeReads(d.livenessProbe);
    ProbeReads(d.readinessProbe);
    if d.resources.Some? {
      TypedReadings(d.resources.value);
      ListsWritten(d.resources.value);
    }
    HelmPodReads(d.podSecurityContext);
    HelmContainerReads(d.securityContext);
  }

  lemma OperatorReadsRoute(v: Value, spec: WorkloadSpec)
    requires ReadsOptional(v, OptionalValues(spec))
    ensures ReadsRoute(v, spec.ingressClass, RouteOf(spec.ingress))
  {
    ClassReads(ClassValue(spec.ingressClass), spec.ingressClass);
    if spec.ingress.Some? { OperatorBlock(spec.ingress.value); }
  }

  lemma HelmReadsRoute(v: Value, d: SpecDoc)
    requires ReadsOptional(v, OptionalTree(d))
    ensures ReadsRoute(v, ClassOf(d.ingressClass), RouteOfDoc(d.ingress))
  {
    ClassReads(Mapped(d.ingressClass, Text()), ClassOf(d.ingressClass));
    if d.ingress.Some? { HelmBlock(d.ingress.value); }
  }

  /** The spec's route; an empty path or path type stands for the default. */
  function RouteOf(i: Option<IngressConfig>): Option<Route>
  {
    if i == None then None else Some(Route(i.value.host, OrSlash(i.value.path), OrPrefix(i.value.pathType)))
  }

  /** The document's, which has to say that it is enabled. */
  function RouteOfDoc(i: Option<IngressDoc>): Option<Route>
  {
    if i == None || i.value.enabled != Some(true) then None
    else
      Some(Route(i.value.host, if i.value.path == None then "/" else OrSlash(i.value.path.value),
                 if i.value.pathType == None then "Prefix" else OrPrefix(i.value.pathType.value)))
  }

  function ClassOf(ingressClass: Option<string>): string
  {
    if ingressClass == None then "" else ingressClass.value
  }

  /** Tier A: everything that the operator's values make the chart render, from the spec. The budget keeps one
      replica, claims alone are dropped, and an Ingress is there iff the spec has the block. */
  lemma OperatorRenders(name: string, namespace: string, spec: WorkloadSpec)
    ensures var hardenedPod :=
              Map(map["runAsNonRoot" := Bool(true), "seccompProfile" := Map(map["type" := Str("RuntimeDefault")])]);
            var hardenedContainer :=
              Map(map["allowPrivilegeEscalation" := Bool(false), "readOnlyRootFilesystem" := Bool(true),
                      "capabilities" := Map(map["drop" := List([Str("ALL")])])]);
            Install(OperatorValues(name, namespace, spec)) ==
            ObjectsOf(
              name, namespace, spec.image, spec.port, spec.autoscale, spec.livenessProbe, spec.readinessProbe,
              PassedOn(spec.resources),
              OperatorContext(spec.podSecurityContext, hardenedPod),
              OperatorContext(spec.securityContext, hardenedContainer), 1, spec.ingressClass, RouteOf(spec.ingress))
  {
    forall k | Plain(k)
      ensures Member(OperatorValues(name, namespace, spec), k) ==
              PlainMember(name, namespace, spec.image, spec.port, spec.autoscale, 1, k)
    {
      OperatorPlain(name, namespace, spec, k);
    }
    var v := Coalesce(OperatorValues(name, namespace, spec));
    SuppliedReads(OperatorValues(name, namespace, spec), name, namespace, spec.image, spec.port, spec.autoscale, 1);
    OperatorReadsOptional(name, namespace, spec);
    OperatorReads(v, spec);
    OperatorReadsRoute(v, spec);
    Assembled(
      v, name, namespace, spec.image, spec.port, spec.autoscale, spec.livenessProbe,
      spec.readinessProbe, PassedOn(spec.resources),
      OperatorContext(spec.podSecurityContext, HARDENED_POD),
      OperatorContext(spec.securityContext, HARDENED_CONTAINER), 1, spec.ingressClass, RouteOf(spec.ingress));
  }

  /** Tier B: everything that a release renders, from the document. The budget is the knob, claims are kept, and
      an Ingress is there iff the block says that it is enabled. */
  lemma ReleaseRenders(name: string, namespace: string, d: SpecDoc, n: int)
    ensures var hardenedPod :=
              Map(map["runAsNonRoot" := Bool(true), "seccompProfile" := Map(map["type" := Str("RuntimeDefault")])]);
            var hardenedContainer :=
              Map(map["allowPrivilegeEscalation" := Bool(false), "readOnlyRootFilesystem" := Bool(true),
                      "capabilities" := Map(map["drop" := List([Str("ALL")])])]);
            Install(HelmValues(name, namespace, d, n)) ==
            ObjectsOf(
              name, namespace, d.image, d.port, d.autoscale, d.livenessProbe, d.readinessProbe,
              if d.resources == None then map[] else ListsOf(d.resources.value),
              HelmContext(d.podSecurityContext, hardenedPod), HelmContext(d.securityContext, hardenedContainer), n,
              ClassOf(d.ingressClass), RouteOfDoc(d.ingress))
  {
    forall k | Plain(k)
      ensures Member(HelmValues(name, namespace, d, n), k) ==
              PlainMember(name, namespace, d.image, d.port, d.autoscale, n, k)
    {
      HelmPlain(name, namespace, d, n, k);
    }
    var v := Coalesce(HelmValues(name, namespace, d, n));
    SuppliedReads(HelmValues(name, namespace, d, n), name, namespace, d.image, d.port, d.autoscale, n);
    HelmReadsOptional(name, namespace, d, n);
    HelmReads(v, d);
    HelmReadsRoute(v, d);
    Assembled(
      v, name, namespace, d.image, d.port, d.autoscale, d.livenessProbe,
      d.readinessProbe, if d.resources == None then map[] else ListsOf(d.resources.value),
      HelmContext(d.podSecurityContext, HARDENED_POD), HelmContext(d.securityContext, HARDENED_CONTAINER), n,
      ClassOf(d.ingressClass), RouteOfDoc(d.ingress));
  }

  /** What the chart renders when nothing is supplied: the chart's own defaults. */
  lemma DefaultsRender()
    ensures Install(map[]) ==
            ObjectsOf(
              "", "", "", 8080, Autoscale(2, 10, 70), None, None, map[],
              Map(map["runAsNonRoot" := Bool(true), "seccompProfile" := Map(map["type" := Str("RuntimeDefault")])]),
              Map(map["allowPrivilegeEscalation" := Bool(false), "readOnlyRootFilesystem" := Bool(true),
                      "capabilities" := Map(map["drop" := List([Str("ALL")])])]),
              1, "", None)
  {
    NothingOverlays(DEFAULTS);
    Defaults();
    PlainDefaults();
    EmptyReads(Map(DEFAULTS));
    Assembled(
      Map(DEFAULTS), "", "", "", 8080, Autoscale(2, 10, 70), None, None, map[], HARDENED_POD, HARDENED_CONTAINER, 1, "",
      None);
  }

  lemma NothingOverlays(defaults: map<string, Value>)
    ensures Overlay(map[], defaults) == defaults
  {
  }

  lemma EmptyReads(v: Value)
    requires Get(v, "livenessProbe") == Get(v, "readinessProbe") == Map(map[])
    requires Get(v, "resources") == Get(v, "securityContext") == Get(v, "podSecurityContext") == Map(map[])
    requires Get(v, "ingressClass") == Str("") && Get(v, "ingress") == DefaultIngress()
    ensures Reads(v, None, None, map[], HARDENED_POD, HARDENED_CONTAINER) && ReadsRoute(v, "", None)
  {
    HardenedPodIsTyped();
    HardenedContainerIsTyped();
  }

  lemma PlainDefaults()
    ensures ReadsPlain(Map(DEFAULTS), "", "", "", 8080, Autoscale(2, 10, 70), 1)
  {
  }

  lemma SuppliedEntry(name: string, namespace: string, spec: WorkloadSpec, k: string)
    requires Differing(k)
    ensures Member(OperatorValues(name, namespace, spec), k) == Entry(OptionalValues(spec), k)
  {
    NoBase(spec.image, spec.port, spec.autoscale, name, namespace, 1, k);
    MemberOfSum(Required(spec.image, spec.port, spec.autoscale), Identity(name, namespace, 1), k);
    OptionalMember(FixedValues(name, namespace, spec), OptionalValues(spec), k);
  }

  /** What the operator itself puts under the keys for which the templates have fallbacks: resources only if some
      list is passed on, and an ingress block with nothing left to default. */
  lemma OperatorSupplies(name: string, namespace: string, spec: WorkloadSpec)
    ensures Member(OperatorValues(name, namespace, spec), "resources") ==
            if PassedOn(spec.resources) == map[] then None else Some(Map(PassedOn(spec.resources)))
    ensures Member(OperatorValues(name, namespace, spec), "ingressClass") ==
            if spec.ingressClass == "" then None else Some(Str(spec.ingressClass))
    ensures Member(OperatorValues(name, namespace, spec), "ingress") ==
            if spec.ingress == None then None
            else
              Some(Map(map["enabled" := Bool(true), "host" := Str(spec.ingress.value.host),
                           "path" := Str(OrSlash(spec.ingress.value.path)),
                           "pathType" := Str(OrPrefix(spec.ingress.value.pathType))]))
  {
    OptionalKeys();
    Entries(OptionalValues(spec));
    SuppliedEntry(name, namespace, spec, "resources");
    SuppliedEntry(name, namespace, spec, "ingressClass");
    SuppliedEntry(name, namespace, spec, "ingress");
    PassesIff(spec.resources);
  }

  lemma PassesIff(r: Resources)
    ensures ResourcesValue(r) == if PassedOn(r) == map[] then None else Some(Map(PassedOn(r)))
  {
    ListsWritten(r);
    NothingWrittenIff(r);
  }

  /** A deployment of the document that succeeds is reported as degraded iff the document asks for a canary. */
  lemma DegradedIff(d: SpecDoc, base: Status, generation: nat, live: Option<int>)
    ensures var status := SucceededStatus(base, Admitted(d), generation, live);
            var rollout := FindCondition(status.conditions, "RolloutDegraded");
            rollout.Some? && (rollout.value.holds <==> d.rolloutStrategy == Some("Canary"))
    ensures Admitted(d).rolloutStrategy == "RollingUpdate" <==> d.rolloutStrategy in {None, Some("RollingUpdate")}
  {
    SuccessTells(base, Admitted(d), generation, live);
  }
}
