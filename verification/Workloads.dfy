/** The Workload resource and its status conditions (operator/api/v1/workload_types.go). */
module Workloads {
  import opened Values

  datatype Probe = Probe(path: string, port: int)
  datatype Autoscale = Autoscale(minReplicas: int, maxReplicas: int, targetCPUUtilization: int)
  datatype IngressConfig = IngressConfig(host: string, path: string, pathType: string)

  /** A nil list of requests, limits or claims is None. */
  datatype Resources = Resources(
    requests: Option<map<string, string>>, limits: Option<map<string, string>>, claims: Option<seq<string>>)

  datatype WorkloadSpec = WorkloadSpec(
    image: string,
    port: int,
    rolloutStrategy: string,
    autoscale: Autoscale,
    livenessProbe: Option<Probe>,
    readinessProbe: Option<Probe>,
    resources: Resources,
    securityContext: Option<map<string, Value>>,
    podSecurityContext: Option<map<string, Value>>,
    ingressClass: string,
    ingress: Option<IngressConfig>)

  const CANARY := "Canary"
  const READY := "Ready"
  const ROLLOUT_DEGRADED := "RolloutDegraded"
  const RECONCILED := "all child objects applied"

  datatype Condition = Condition(name: string, holds: bool, reason: string, message: string, observedGeneration: nat)

  datatype Status = Status(conditions: seq<Condition>, observedGeneration: nat, readyReplicas: int)

  const NO_STATUS := Status([], 0, 0)

  /** `uid` tells apart the incarnations of a name. */
  datatype Workload = Workload(uid: nat, generation: nat, spec: WorkloadSpec, status: Status)

  /** The first condition of that name, as every reader of the list finds it. */
  function FindCondition(conditions: seq<Condition>, name: string): (found: Option<Condition>)
    ensures found.Some? <==> exists c :: c in conditions && c.name == name
    ensures found.Some? ==> found.value in conditions && found.value.name == name
  {
    if conditions == [] then None
    else if conditions[0].name == name then Some(conditions[0])
    else FindCondition(conditions[1..], name)
  }

  /** Replace the first condition of the same name, or append. */
  function SetCondition(conditions: seq<Condition>, c: Condition): seq<Condition>
  {
    if conditions == [] then [c]
    else if conditions[0].name == c.name then [c] + conditions[1..]
    else [conditions[0]] + SetCondition(conditions[1..], c)
  }

  /** A condition just set is the one found, and every other name finds what it found before. */
  lemma {:induction false} SetThenFind(conditions: seq<Condition>, c: Condition, name: string)
    ensures FindCondition(SetCondition(conditions, c), name) ==
            if name == c.name then Some(c) else FindCondition(conditions, name)
  {
    if conditions != [] && conditions[0].name != c.name {
      SetThenFind(conditions[1..], c, name);
      assert SetCondition(conditions, c)[1..] == SetCondition(conditions[1..], c);
    } else if conditions != [] {
      assert SetCondition(conditions, c)[1..] == conditions[1..];
    }
  }

  /** Setting a condition that is found already changes nothing. */
  lemma {:induction false} SetFound(conditions: seq<Condition>, c: Condition)
    ensures SetCondition(conditions, c) == conditions <==> FindCondition(conditions, c.name) == Some(c)
  {
    SetThenFind(conditions, c, c.name);
    if conditions != [] && conditions[0].name != c.name {
      SetFound(conditions[1..], c);
      assert conditions == [conditions[0]] + conditions[1..];
      assert SetCondition(conditions, c)[1..] == SetCondition(conditions[1..], c);
    } else if conditions != [] {
      assert conditions == [conditions[0]] + conditions[1..];
    }
  }

  /** Whether the status claims readiness, and for which generation. */
  function ReadyAt(status: Status): Option<nat>
  {
    var c := FindCondition(status.conditions, READY);
    if c.Some? && c.value.holds then Some(c.value.observedGeneration) else None
  }

  /** The status a failed reconcile reports: Ready=False at the generation it read, nothing else. */
  function FailedStatus(base: Status, generation: nat, reason: string, message: string): Status
  {
    base.(conditions := SetCondition(base.conditions, Condition(READY, false, reason, message, generation)))
  }

  function RolloutCondition(spec: WorkloadSpec, generation: nat): Condition
  {
    if spec.rolloutStrategy == CANARY
    then Condition(ROLLOUT_DEGRADED, true, "CanaryUnsupported",
      "Canary requested but unsupported in this build → using RollingUpdate", generation)
    else Condition(ROLLOUT_DEGRADED, false, "RollingUpdate", "using RollingUpdate", generation)
  }

  /** The status a successful reconcile reports; `live` is the Deployment's ready count when read. */
  function SucceededStatus(base: Status, spec: WorkloadSpec, generation: nat, live: Option<int>): Status
  {
    Status(
      SetCondition(SetCondition(base.conditions, RolloutCondition(spec, generation)),
                   Condition(READY, true, "Reconciled", RECONCILED, generation)),
      generation,
      if live.Some? then live.value else base.readyReplicas)
  }

  /** A success changes no condition exactly when both of its conditions are found already. */
  lemma SameConditionsIff(base: Status, spec: WorkloadSpec, generation: nat, live: Option<int>)
    ensures SucceededStatus(base, spec, generation, live).conditions == base.conditions <==>
            && FindCondition(base.conditions, ROLLOUT_DEGRADED) == Some(RolloutCondition(spec, generation))
            && FindCondition(base.conditions, READY) ==
               Some(Condition(READY, true, "Reconciled", RECONCILED, generation))
  {
    var r, y := RolloutCondition(spec, generation), Condition(READY, true, "Reconciled", RECONCILED, generation);
    var once := SetCondition(base.conditions, r);
    SetFound(base.conditions, r);
    SetFound(once, y);
    SetThenFind(base.conditions, r, READY);
    SetThenFind(base.conditions, r, ROLLOUT_DEGRADED);
    SetThenFind(once, y, ROLLOUT_DEGRADED);
    SetThenFind(once, y, READY);
  }

  /** The status patch, field by field: a field equal to the snapshot is not sent, and the list of
      conditions is one field. */
  function PatchStatus(current: Status, base: Status, next: Status): Status
  {
    Status(
      if next.conditions != base.conditions then next.conditions else current.conditions,
      if next.observedGeneration != base.observedGeneration then next.observedGeneration
        else current.observedGeneration,
      if next.readyReplicas != base.readyReplicas then next.readyReplicas else current.readyReplicas)
  }

  lemma FailedStatusReady(base: Status, generation: nat, reason: string, message: string)
    ensures ReadyAt(FailedStatus(base, generation, reason, message)) == None
  {
    SetThenFind(base.conditions, Condition(READY, false, reason, message, generation), READY);
  }

  lemma SucceededStatusReady(base: Status, spec: WorkloadSpec, generation: nat, live: Option<int>)
    ensures ReadyAt(SucceededStatus(base, spec, generation, live)) == Some(generation)
  {
    SetThenFind(SetCondition(base.conditions, RolloutCondition(spec, generation)),
                Condition(READY, true, "Reconciled", RECONCILED, generation), READY);
  }

  /** What a reader of the status is told after a success: whether the rollout strategy asked for was
      degraded, that the Workload is ready, both at the generation read, and how many replicas are. Other
      conditions are found as before. */
  ghost predicate TellsSuccess(
      base: Status, spec: WorkloadSpec, generation: nat, live: Option<int>, status: Status)
  {
    var rollout, ready := FindCondition(status.conditions, "RolloutDegraded"),
      FindCondition(status.conditions, "Ready");
    var canary := spec.rolloutStrategy == "Canary";
    && rollout.Some? && (rollout.value.holds <==> canary) && rollout.value.observedGeneration == generation
    && rollout.value.reason == (if canary then "CanaryUnsupported" else "RollingUpdate")
    && rollout.value.message ==
       (if canary then "Canary requested but unsupported in this build → using RollingUpdate"
         else "using RollingUpdate")
    && ready.Some? && ready.value.holds && ready.value.reason == "Reconciled"
    && ready.value.message == "all child objects applied"
    && ready.value.observedGeneration == generation == status.observedGeneration
    && status.readyReplicas == (if live.Some? then live.value else base.readyReplicas)
    && forall name: string :: name != "RolloutDegraded" && name != "Ready" ==>
         FindCondition(status.conditions, name) == FindCondition(base.conditions, name)
  }

  /** And after a failure: that the Workload is not ready at the generation read, and why. Everything else
      stays as it was, the observed generation included. */
  ghost predicate TellsFailure(base: Status, generation: nat, reason: string, message: string, status: Status)
  {
    var ready := FindCondition(status.conditions, "Ready");
    && ready.Some? && !ready.value.holds && ready.value.observedGeneration == generation
    && ready.value.reason == reason && ready.value.message == message
    && status.observedGeneration == base.observedGeneration
    && status.readyReplicas == base.readyReplicas
    && forall name: string :: name != "Ready" ==>
         FindCondition(status.conditions, name) == FindCondition(base.conditions, name)
  }

  lemma SuccessTells(base: Status, spec: WorkloadSpec, generation: nat, live: Option<int>)
    ensures TellsSuccess(base, spec, generation, live, SucceededStatus(base, spec, generation, live))
  {
    var rollout := RolloutCondition(spec, generation);
    var ready := Condition(READY, true, "Reconciled", RECONCILED, generation);
    SetTwice(base.conditions, rollout, ready);
  }

  /** Of two conditions set one after the other, each is the one found under its name. */
  lemma SetTwice(conditions: seq<Condition>, a: Condition, b: Condition)
    requires a.name != b.name
    ensures forall name: string {:trigger FindCondition(SetCondition(SetCondition(conditions, a), b), name)} ::
              FindCondition(SetCondition(SetCondition(conditions, a), b), name) ==
              if name == b.name then Some(b) else if name == a.name then Some(a) else FindCondition(conditions, name)
  {
    forall name: string
      ensures FindCondition(SetCondition(SetCondition(conditions, a), b), name) ==
              if name == b.name then Some(b) else if name == a.name then Some(a) else FindCondition(conditions, name)
    {
      SetThenFind(conditions, a, name);
      SetThenFind(SetCondition(conditions, a), b, name);
    }
  }

  lemma FailureTells(base: Status, generation: nat, reason: string, message: string)
    ensures TellsFailure(base, generation, reason, message, FailedStatus(base, generation, reason, message))
  {
    var ready := Condition(READY, false, reason, message, generation);
    forall name: string
      ensures FindCondition(SetCondition(base.conditions, ready), name) ==
              if name == "Ready" then Some(ready) else FindCondition(base.conditions, name)
    {
      SetThenFind(base.conditions, ready, name);
    }
  }

  // The JSON encoding of a status, with omitempty on all three fields.

  function ConditionToValue(c: Condition): Value
  {
    Map(map["type" := Str(c.name), "status" := Str(if c.holds then "True" else "False"), "reason" := Str(c.reason),
            "message" := Str(c.message), "observedGeneration" := Int(c.observedGeneration)])
  }

  function ConditionsField(conditions: seq<Condition>): Option<Value>
  {
    if conditions == [] then None
    else Some(List(seq(|conditions|, i requires 0 <= i < |conditions| => ConditionToValue(conditions[i]))))
  }

  function NumberField(n: int): Option<Value>
  {
    if n == 0 then None else Some(Int(n))
  }

  function Field(name: string, field: Option<Value>): map<string, Value>
  {
    if field.None? then map[] else map[name := field.value]
  }

  function StatusToValue(s: Status): map<string, Value>
  {
    Field("conditions", ConditionsField(s.conditions))
    + Field("observedGeneration", NumberField(s.observedGeneration))
    + Field("readyReplicas", NumberField(s.readyReplicas))
  }

  lemma StatusMember(s: Status, k: string)
    ensures Member(StatusToValue(s), k) ==
            if k == "conditions" then ConditionsField(s.conditions)
            else if k == "observedGeneration" then NumberField(s.observedGeneration)
            else if k == "readyReplicas" then NumberField(s.readyReplicas)
            else None
  {
  }

  /** What a status looks like on the wire: empty fields are left out, and truth is a word. */
  lemma EncodedStatus(s: Status)
    ensures "conditions" in StatusToValue(s) <==> s.conditions != []
    ensures "observedGeneration" in StatusToValue(s) <==> s.observedGeneration != 0
    ensures "readyReplicas" in StatusToValue(s) <==> s.readyReplicas != 0
    ensures forall c: Condition ::
              Member(ConditionToValue(c).entries, "status") == Some(Str(if c.holds then "True" else "False"))
  {
    StatusMember(s, "conditions");
    StatusMember(s, "observedGeneration");
    StatusMember(s, "readyReplicas");
  }

  lemma ConditionsFieldInjective(a: seq<Condition>, b: seq<Condition>)
    requires ConditionsField(a) == ConditionsField(b)
    ensures a == b
  {
    if a != [] {
      var x, y := ConditionsField(a).value.items, ConditionsField(b).value.items;
      forall i | 0 <= i < |a| ensures a[i] == b[i] {
        assert x[i] == ConditionToValue(a[i]) && y[i] == ConditionToValue(b[i]);
        var m, n := x[i].entries, y[i].entries;
        assert m["type"] == n["type"] && m["status"] == n["status"] && m["reason"] == n["reason"];
        assert m["message"] == n["message"] && m["observedGeneration"] == n["observedGeneration"];
      }
    }
  }

  /** The field-by-field patch is what a JSON merge patch of the encoded statuses does, whatever the
      store holds by the time the patch arrives. */
  lemma PatchStatusIsMergePatch(current: Status, base: Status, next: Status)
    ensures MergePatch(Map(StatusToValue(current)), Map(Diff(StatusToValue(base), StatusToValue(next)))) ==
            Map(StatusToValue(PatchStatus(current, base, next)))
  {
    var patched := PatchStatus(current, base, next);
    var merged := MergePatch(Map(StatusToValue(current)), Map(Diff(StatusToValue(base), StatusToValue(next)))).entries;
    forall k ensures Member(merged, k) == Member(StatusToValue(patched), k) {
      PatchedMember(current, base, next, k);
    }
    SameMembers(merged, StatusToValue(patched));
  }

  lemma SameMembers(a: map<string, Value>, b: map<string, Value>)
    requires forall k :: Member(a, k) == Member(b, k)
    ensures a == b
  {
    forall k ensures k in a <==> k in b
             ensures k in a ==> a[k] == b[k]
    {
      assert Member(a, k) == Member(b, k);
    }
  }

  lemma PatchedMember(current: Status, base: Status, next: Status, k: string)
    ensures Member(MergePatch(Map(StatusToValue(current)),
            Map(Diff(StatusToValue(base), StatusToValue(next)))).entries, k) ==
            Member(StatusToValue(PatchStatus(current, base, next)), k)
  {
    StatusMember(current, k);
    StatusMember(base, k);
    StatusMember(next, k);
    StatusMember(PatchStatus(current, base, next), k);
    MergeMember(StatusToValue(current), StatusToValue(base), StatusToValue(next), k);
    if k == "conditions" && ConditionsField(base.conditions) == ConditionsField(next.conditions) {
      ConditionsFieldInjective(base.conditions, next.conditions);
    }
  }
}
