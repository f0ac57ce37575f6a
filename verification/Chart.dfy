/** The workload chart: its default values and which values decide each object
    (charts/workload/values.yaml, charts/workload/templates). */
module Chart {
  import opened Values

  const DEFAULTS: map<string, Value> := map[
    "name" := Str(""),
    "namespace" := Str(""),
    "image" := Str(""),
    "port" := Int(8080),
    "autoscale" := Map(map["minReplicas" := Int(2), "maxReplicas" := Int(10), "targetCPUUtilization" := Int(70)]),
    "livenessProbe" := Map(map[]),
    "readinessProbe" := Map(map[]),
    "resources" := Map(map[]),
    "podSecurityContext" := Map(map[]),
    "securityContext" := Map(map[]),
    "ingressClass" := Str(""),
    "ingress" := Map(map["enabled" := Bool(false), "host" := Str(""), "path" := Str("/"), "pathType" := Str("Prefix")]),
    "pdb" := Map(map["minAvailable" := Int(1)]),
    "networkPolicy" := Map(map["enabled" := Bool(true), "metadataIP" := Str("169.254.169.254/32")])]

  const HARDENED_POD := Map(map["runAsNonRoot" := Bool(true),
    "seccompProfile" := Map(map["type" := Str("RuntimeDefault")])])

  const HARDENED_CONTAINER := Map(map[
    "allowPrivilegeEscalation" := Bool(false), "readOnlyRootFilesystem" := Bool(true),
    "capabilities" := Map(map["drop" := List([Str("ALL")])])])

  /** The rendered objects, as typed objects: name, namespace, and what else the templates fill in. */
  datatype Manifest =
    | Deployment(name: Value, namespace: Value, image: Value, port: Value, podSecurity: Value, security: Value,
                 liveness: Option<(Value, Value)>, readiness: Option<(Value, Value)>, resources: map<string, Value>)
    | Service(name: Value, namespace: Value, port: Value)
    | Autoscaler(name: Value, namespace: Value, minReplicas: Value, maxReplicas: Value, cpu: Value)
    | DisruptionBudget(name: Value, namespace: Value, minAvailable: Value)
    | DefaultDeny(name: Value, namespace: Value)
    | AllowOwnPort(name: Value, namespace: Value, port: Value, metadataIP: Value)
    | Ingress(name: Value, namespace: Value, ingressClass: Option<Value>, host: Value, path: Value, pathType: Value,
      port: Value)

  /** A template's field access: nil for what is not there. */
  function Get(v: Value, k: string): Value
  {
    if v.Map? && k in v.entries then v.entries[k] else Null
  }

  function Default(v: Value, otherwise: Value): Value
  {
    if Truthy(v) then v else otherwise
  }

  function ProbeBlock(probe: Value): Option<(Value, Value)>
  {
    if Truthy(probe) && Truthy(Get(probe, "path")) then Some((Get(probe, "path"), Get(probe, "port"))) else None
  }

  /** A resources block as the typed object holds it: empty lists are no different from absent ones. */
  function TypedResources(block: Value): map<string, Value>
  {
    if !block.Map? then map[] else map k | k in block.entries && Truthy(block.entries[k]) :: block.entries[k]
  }

  /** What decoding into a typed object does not keep, and writing one out omits. */
  predicate Omitted(v: Value)
  {
    v == Null || v == List([])
  }

  /** A security context as the typed object holds it, and as it is written out again: at every level nulls
      and empty lists are no different from absent members. */
  function Typed(v: Value): Value
    decreases v
  {
    match v
    case Map(m) => Map(map k | k in m && !Omitted(m[k]) :: assert m == v.entries; Typed(m[k]))
    case List(xs) => List(seq(|xs|, i requires 0 <= i < |xs| => assert xs == v.items; Typed(xs[i])))
    case _ => v
  }

  function DeploymentOf(v: Value): Manifest
  {
    Deployment(
      Get(v, "name"), Get(v, "namespace"), Get(v, "image"), Get(v, "port"),
      Typed(Default(Get(v, "podSecurityContext"), HARDENED_POD)),
      Typed(Default(Get(v, "securityContext"), HARDENED_CONTAINER)),
      ProbeBlock(Get(v, "livenessProbe")), ProbeBlock(Get(v, "readinessProbe")), TypedResources(Get(v, "resources")))
  }

  function ServiceOf(v: Value): Manifest
  {
    Service(Get(v, "name"), Get(v, "namespace"), Get(v, "port"))
  }

  function AutoscalerOf(v: Value): Manifest
  {
    var autoscale := Get(v, "autoscale");
    Autoscaler(
      Get(v, "name"), Get(v, "namespace"), Get(autoscale, "minReplicas"), Get(autoscale, "maxReplicas"),
      Get(autoscale, "targetCPUUtilization"))
  }

  function BudgetOf(v: Value): Manifest
  {
    DisruptionBudget(Get(v, "name"), Get(v, "namespace"), Get(Get(v, "pdb"), "minAvailable"))
  }

  function PoliciesOf(v: Value): set<Manifest>
  {
    var policy := Get(v, "networkPolicy");
    if Truthy(Get(policy, "enabled"))
    then {DefaultDeny(Get(v, "name"), Get(v, "namespace")),
          AllowOwnPort(Get(v, "name"), Get(v, "namespace"), Get(v, "port"), Get(policy, "metadataIP"))}
    else {}
  }

  predicate Routed(v: Value)
  {
    Truthy(Get(Get(v, "ingress"), "enabled"))
  }

  function IngressOf(v: Value): Manifest
  {
    var ingress, ingressClass := Get(v, "ingress"), Get(v, "ingressClass");
    Ingress(
      Get(v, "name"), Get(v, "namespace"),
      if Truthy(ingressClass) then Some(ingressClass) else None,
      Get(ingress, "host"),
      Default(Get(ingress, "path"), Str("/")), Default(Get(ingress, "pathType"), Str("Prefix")), Get(v, "port"))
  }

  /** The objects the templates render from the coalesced values. */
  function Render(v: Value): set<Manifest>
  {
    {DeploymentOf(v), ServiceOf(v), AutoscalerOf(v), BudgetOf(v)} + PoliciesOf(v)
      + (if Routed(v) then {IngressOf(v)} else {})
  }

  function Coalesce(user: map<string, Value>): Value
  {
    Map(Overlay(user, DEFAULTS))
  }

  /** The chart installed with these user values. */
  function Install(user: map<string, Value>): set<Manifest>
  {
    Render(Coalesce(user))
  }
}
