/** The two routes from one spec document to the chart: the Workload resource that the operator renders
    (modules/workload/main.tf, operator/internal/render/render.go) and the Helm release. */
module Tiers {
  import opened Values
  import opened Workloads
  import opened Chart

  /** The spec document over the fields of the CRD, each optional one present or not. `enabled` of the
      ingress block is no CRD field. */
  datatype IngressDoc = IngressDoc(host: string, path: Option<string>, pathType: Option<string>, enabled: Option<bool>)

  datatype SpecDoc = SpecDoc(
    image: string,
    port: int,
    autoscale: Autoscale,
    rolloutStrategy: Option<string>,
    livenessProbe: Option<Probe>,
    readinessProbe: Option<Probe>,
    resources: Option<Resources>,
    securityContext: Option<map<string, Value>>,
    podSecurityContext: Option<map<string, Value>>,
    ingressClass: Option<string>,
    ingress: Option<IngressDoc>)

  function Mapped<T>(v: Option<T>, f: T -> Value): Option<Value>
  {
    if v.None? then None else Some(f(v.value))
  }

  function Quantities(): map<string, string> -> Value
  {
    (m: map<string, string>) => Map(map k | k in m :: Str(m[k]))
  }

  function Claims(): seq<string> -> Value
  {
    (s: seq<string>) => List(seq(|s|, i requires 0 <= i < |s| => Str(s[i])))
  }

  function Text(): string -> Value
  {
    (s: string) => Str(s)
  }

  function Table(): map<string, Value> -> Value
  {
    (m: map<string, Value>) => Map(m)
  }

  function AutoscaleTree(a: Autoscale): Value
  {
    Map(map["minReplicas" := Int(a.minReplicas), "maxReplicas" := Int(a.maxReplicas),
            "targetCPUUtilization" := Int(a.targetCPUUtilization)])
  }

  function ProbeTree(p: Probe): Value
  {
    Map(map["path" := Str(p.path), "port" := Int(p.port)])
  }

  function ResourcesTree(r: Resources): Value
  {
    Map(Field("requests", Mapped(r.requests, Quantities())) + Field("limits", Mapped(r.limits, Quantities()))
        + Field("claims", Mapped(r.claims, Claims())))
  }

  /** A map with one more entry, if there is one to add. */
  function With(m: map<string, Value>, k: string, v: Option<Value>): map<string, Value>
  {
    if v.None? then m else m[k := v.value]
  }

  function Flag(): bool -> Value
  {
    (b: bool) => Bool(b)
  }

  function IngressTree(i: IngressDoc): Value
  {
    Map(With(With(With(map["host" := Str(i.host)], "path", Mapped(i.path, Text())),
                  "pathType", Mapped(i.pathType, Text())),
             "enabled", Mapped(i.enabled, Flag())))
  }

  /** The optional entries that both routes can put into the values. */
  datatype Optional = Optional(
    liveness: Option<Probe>, readiness: Option<Probe>, ingressClass: Option<Value>, ingress: Option<Value>,
    resources: Option<Value>, security: Option<map<string, Value>>, podSecurity: Option<map<string, Value>>)

  function WithProbes(v: map<string, Value>, liveness: Option<Probe>, readiness: Option<Probe>): map<string, Value>
  {
    With(With(v, "livenessProbe", Mapped(liveness, ProbeTree)), "readinessProbe", Mapped(readiness, ProbeTree))
  }

  function WithIngress(v: map<string, Value>, ingressClass: Option<Value>, ingress: Option<Value>): map<string, Value>
  {
    With(With(v, "ingressClass", ingressClass), "ingress", ingress)
  }

  function WithSecurity(
      v: map<string, Value>, security: Option<map<string, Value>>, podSecurity: Option<map<string, Value>>)
    : map<string, Value>
  {
    With(With(v, "securityContext", Mapped(security, Table())), "podSecurityContext", Mapped(podSecurity, Table()))
  }

  function WithOptional(v: map<string, Value>, o: Optional): map<string, Value>
  {
    WithSecurity(
      With(WithIngress(WithProbes(v, o.liveness, o.readiness), o.ingressClass, o.ingress), "resources", o.resources),
      o.security, o.podSecurity)
  }

  function Required(image: string, port: int, autoscale: Autoscale): map<string, Value>
  {
    map["image" := Str(image), "port" := Int(port), "autoscale" := AutoscaleTree(autoscale)]
  }

  function Identity(name: string, namespace: string, pdbMinAvailable: int): map<string, Value>
  {
    map["name" := Str(name), "namespace" := Str(namespace), "pdb" := Map(map["minAvailable" := Int(pdbMinAvailable)])]
  }

  function RequiredTree(d: SpecDoc): map<string, Value>
  {
    With(Required(d.image, d.port, d.autoscale), "rolloutStrategy", Mapped(d.rolloutStrategy, Text()))
  }

  function OptionalTree(d: SpecDoc): Optional
  {
    Optional(
      d.livenessProbe, d.readinessProbe, Mapped(d.ingressClass, Text()), Mapped(d.ingress, IngressTree),
      Mapped(d.resources, ResourcesTree), d.securityContext, d.podSecurityContext)
  }

  /** The document as decoded YAML. */
  function SpecTree(d: SpecDoc): map<string, Value>
  {
    WithOptional(RequiredTree(d), OptionalTree(d))
  }

  /** Tier A: the API server prunes and defaults the document into a Workload spec. */
  function Admitted(d: SpecDoc): WorkloadSpec
  {
    WorkloadSpec(
      d.image, d.port, if d.rolloutStrategy.Some? then d.rolloutStrategy.value else "RollingUpdate", d.autoscale,
      d.livenessProbe, d.readinessProbe, if d.resources.Some? then d.resources.value else Resources(None, None, None),
      d.securityContext, d.podSecurityContext, if d.ingressClass.Some? then d.ingressClass.value else "",
      if d.ingress.None? then None else Some(AdmittedIngress(d.ingress.value)))
  }

  function AdmittedIngress(i: IngressDoc): IngressConfig
  {
    IngressConfig(i.host, if i.path.Some? then i.path.value else "/", if i.pathType.Some? then i.pathType.value
      else "Prefix")
  }

  function NonEmpty(v: Option<Value>): Option<Value>
  {
    if v.Some? && Truthy(v.value) then v else None
  }

  /** The typed resources as unstructured content: empty lists are omitted. */
  function ResourcesToUnstructured(r: Resources): map<string, Value>
  {
    Field("requests", NonEmpty(Mapped(r.requests, Quantities())))
      + Field("limits", NonEmpty(Mapped(r.limits, Quantities())))
    + Field("claims", NonEmpty(Mapped(r.claims, Claims())))
  }

  function OrElse(s: string, otherwise: string): string
  {
    if s == "" then otherwise else s
  }

  function IngressValues(i: IngressConfig): Value
  {
    Map(map["enabled" := Bool(true), "host" := Str(i.host), "path" := Str(OrElse(i.path, "/")),
            "pathType" := Str(OrElse(i.pathType, "Prefix"))])
  }

  predicate SomeList(r: Resources)
  {
    || (r.requests.Some? && r.requests.value != map[])
    || (r.limits.Some? && r.limits.value != map[])
    || (r.claims.Some? && r.claims.value != [])
  }

  lemma NothingWrittenIff(r: Resources)
    ensures ResourcesToUnstructured(r) == map[] <==> !SomeList(r)
  {
    if r.requests.Some? && r.requests.value != map[] {
      var k :| k in r.requests.value;
      assert k in Quantities()(r.requests.value).entries;
      assert "requests" in ResourcesToUnstructured(r);
    }
    if r.limits.Some? && r.limits.value != map[] {
      var k :| k in r.limits.value;
      assert k in Quantities()(r.limits.value).entries;
      assert "limits" in ResourcesToUnstructured(r);
    }
    if r.claims.Some? {
      assert |Claims()(r.claims.value).items| == |r.claims.value|;
      assert r.claims.value != [] ==> "claims" in ResourcesToUnstructured(r);
    }
  }

  /** Resources are passed on when some list is not empty, but only next to a list of requests or of limits,
      be that one empty or not. */
  predicate PassesResources(r: Resources)
  {
    (r.requests.Some? || r.limits.Some?) && SomeList(r)
  }

  function ResourcesValue(r: Resources): Option<Value>
  {
    if PassesResources(r) then Some(Map(ResourcesToUnstructured(r))) else None
  }

  /** What every rendering sets. */
  function FixedValues(name: string, namespace: string, spec: WorkloadSpec): map<string, Value>
  {
    Required(spec.image, spec.port, spec.autoscale) + Identity(name, namespace, 1)
  }

  /** A typed security context as unstructured content. */
  function Written(context: Option<map<string, Value>>): Option<map<string, Value>>
  {
    if context.None? then None else Some(Typed(Map(context.value)).entries)
  }

  function OptionalValues(spec: WorkloadSpec): Optional
  {
    Optional(
      spec.livenessProbe, spec.readinessProbe, ClassValue(spec.ingressClass), Mapped(spec.ingress, IngressValues),
      ResourcesValue(spec.resources), Written(spec.securityContext), Written(spec.podSecurityContext))
  }

  /** The values the operator renders the chart with. */
  function OperatorValues(name: string, namespace: string, spec: WorkloadSpec): map<string, Value>
  {
    WithOptional(FixedValues(name, namespace, spec), OptionalValues(spec))
  }

  function ClassValue(ingressClass: string): Option<Value>
  {
    if ingressClass == "" then None else Some(Str(ingressClass))
  }

  method AddProbes(values: map<string, Value>, spec: WorkloadSpec) returns (v: map<string, Value>)
    ensures v == WithProbes(values, spec.livenessProbe, spec.readinessProbe)
  {
    v := values;
    if spec.livenessProbe.Some? {
      v := v["livenessProbe" := ProbeTree(spec.livenessProbe.value)];
    }
    if spec.readinessProbe.Some? {
      v := v["readinessProbe" := ProbeTree(spec.readinessProbe.value)];
    }
  }

  method AddIngress(values: map<string, Value>, spec: WorkloadSpec) returns (v: map<string, Value>)
    ensures v == WithIngress(values, ClassValue(spec.ingressClass), Mapped(spec.ingress, IngressValues))
  {
    v := values;
    if spec.ingressClass != "" {
      v := v["ingressClass" := Str(spec.ingressClass)];
    }
    if spec.ingress.Some? {
      var i := spec.ingress.value;
      var path := i.path;
      if path == "" {
        path := "/";
      }
      var pathType := i.pathType;
      if pathType == "" {
        pathType := "Prefix";
      }
      v := v["ingress" := Map(map["enabled" := Bool(true), "host" := Str(i.host), "path" := Str(path),
        "pathType" := Str(pathType)])];
    }
  }

  method AddResources(values: map<string, Value>, spec: WorkloadSpec) returns (v: map<string, Value>)
    ensures PassesResources(spec.resources) ==> v == values["resources" := Map(ResourcesToUnstructured(spec.resources))]
    ensures !PassesResources(spec.resources) ==> v == values
  {
    v := values;
    if spec.resources.requests.Some? || spec.resources.limits.Some? {
      var res := ResourcesToUnstructured(spec.resources);
      NothingWrittenIff(spec.resources);
      if res != map[] {
        v := v["resources" := Map(res)];
      }
    }
  }

  method AddSecurity(values: map<string, Value>, spec: WorkloadSpec) returns (v: map<string, Value>)
    ensures v == WithSecurity(values, Written(spec.securityContext), Written(spec.podSecurityContext))
  {
    v := values;
    if spec.securityContext.Some? {
      v := v["securityContext" := Typed(Map(spec.securityContext.value))];
    }
    if spec.podSecurityContext.Some? {
      v := v["podSecurityContext" := Typed(Map(spec.podSecurityContext.value))];
    }
  }

  /** The values as the operator builds them: one map, filled in by one conditional after another. */
  method ValuesFromSpec(name: string, namespace: string, spec: WorkloadSpec) returns (v: map<string, Value>)
    ensures v == OperatorValues(name, namespace, spec)
  {
    v := FixedValues(name, namespace, spec);
    v := AddProbes(v, spec);
    v := AddIngress(v, spec);
    v := AddResources(v, spec);
    v := AddSecurity(v, spec);
  }

  /** The values of the Helm release: the document, the identity, and the budget knob. */
  function HelmValues(name: string, namespace: string, d: SpecDoc, pdbMinAvailable: int): map<string, Value>
  {
    SpecTree(d) + Identity(name, namespace, pdbMinAvailable)
  }

  function TierA(name: string, namespace: string, d: SpecDoc): set<Manifest>
  {
    Install(OperatorValues(name, namespace, Admitted(d)))
  }

  function TierB(name: string, namespace: string, d: SpecDoc, pdbMinAvailable: int): set<Manifest>
  {
    Install(HelmValues(name, namespace, d, pdbMinAvailable))
  }
}
